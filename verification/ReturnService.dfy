/** `services/returns.py` in its own form, with the retry of `services/refunds.py`. */
module ReturnService {
  import opened Domain
  import opened Tables
  import opened CaseStore
  import opened Sessions
  import CaseStoreService
  import RefundService
  import opened Returns

  /** What a request takes from outside: the settings, the clock and the id of an event it may add. */
  datatype Moment = Moment(settings: Settings, now: Time, newEvent: EventId)

  /** What a command that answers no flag must do. */
  function Alone(m: Moment, db: Db, context: Context, cmd: Command): Result<Db> {
    var done :- Exec(m.settings, db, context, cmd, m.now, m.newEvent);
    Ok(done.0)
  }

  method AuthorizeCase(m: Moment, db: Session, context: Context, c: CaseId, expected: int) returns (r: Result<()>)
    modifies db
    ensures Meets(db.Contents(), r, Alone(m, old(db.Contents()), context, Command(c, expected, Authorize)))
  {
    if !HasRole(context, {CustomerService}) {
      return Err(PermissionDenied);
    }
    var read :- CaseStoreService.GetCase(db, context, c);
    var _ :- CaseStoreService.CasTransition(db, c, read, Authorized, Some(context), false, expected, None,
                                            ReturnAuthorized);
    r := RefundService.AddApproval(db, Approval(context.org, c, Eligibility, Approved, context.user, None));
  }

  method ReceiveCase(m: Moment, db: Session, context: Context, c: CaseId, expected: int) returns (r: Result<()>)
    modifies db
    ensures Meets(db.Contents(), r, Alone(m, old(db.Contents()), context, Command(c, expected, Receive)))
  {
    if !HasRole(context, {Warehouse}) {
      return Err(PermissionDenied);
    }
    var read :- CaseStoreService.GetCase(db, context, c);
    r := CaseStoreService.CasTransition(db, c, read, Received, Some(context), false, expected, None, ReturnReceived);
  }

  method InspectCase(m: Moment, db: Session, context: Context, c: CaseId, expected: int) returns (r: Result<()>)
    modifies db
    ensures Meets(db.Contents(), r, Alone(m, old(db.Contents()), context, Command(c, expected, Inspect)))
  {
    if !HasRole(context, {Warehouse}) {
      return Err(PermissionDenied);
    }
    var read :- CaseStoreService.GetCase(db, context, c);
    r := CaseStoreService.CasTransition(db, c, read, Inspected, Some(context), false, expected, None, ReturnInspected);
  }

  method RejectCase(m: Moment, db: Session, context: Context, c: CaseId, expected: int) returns (r: Result<()>)
    modifies db
    ensures Meets(db.Contents(), r, Alone(m, old(db.Contents()), context, Command(c, expected, Reject)))
  {
    var read :- CaseStoreService.GetCase(db, context, c);
    if context.role !in {CustomerService, Finance, Admin} {
      return Err(PermissionDenied);
    }
    if read.status !in {Requested, Inspected} {
      return Err(Conflict);
    }
    r := CaseStoreService.CasTransition(db, c, read, Rejected, Some(context), false, expected, None, ReturnRejected);
  }

  method RetryFailedRefund(m: Moment, db: Session, context: Context, c: CaseId, expected: int) returns (r: Result<()>)
    modifies db
    ensures Meets(db.Contents(), r, Alone(m, old(db.Contents()), context, Command(c, expected, RetryFailed)))
  {
    if !HasRole(context, {Finance}) {
      return Err(PermissionDenied);
    }
    var read :- CaseStoreService.GetCase(db, context, c);
    var seen := AttemptOf(db.Contents(), context, c);
    r := RefundService.RetryAsRead(db, context, c, expected, read, seen, m.now, m.newEvent);
  }

  method ReconcileCase(m: Moment, db: Session, context: Context, c: CaseId, expected: int) returns (r: Result<()>)
    modifies db
    ensures Meets(db.Contents(), r, Alone(m, old(db.Contents()), context, Command(c, expected, MarkReconciled)))
  {
    if !HasRole(context, {Finance}) {
      return Err(PermissionDenied);
    }
    var read :- CaseStoreService.GetCase(db, context, c);
    r := CaseStoreService.CasTransition(db, c, read, Reconciled, Some(context), false, expected, None,
                                        ReturnReconciled);
  }

  method CloseCase(m: Moment, db: Session, context: Context, c: CaseId, expected: int) returns (r: Result<()>)
    modifies db
    ensures Meets(db.Contents(), r, Alone(m, old(db.Contents()), context, Command(c, expected, Close)))
  {
    if !HasRole(context, {Finance}) {
      return Err(PermissionDenied);
    }
    var read :- CaseStoreService.GetCase(db, context, c);
    r := CaseStoreService.CasTransition(db, c, read, Closed, Some(context), false, expected, None, ReturnClosed);
  }
}
