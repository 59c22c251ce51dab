/** `services/refunds.py` in its own form. */
module RefundService {
  import opened Domain
  import opened Tables
  import opened Sessions
  import CaseStoreService
  import OutboxService
  import Refunds
  import Returns

  /** `db.add(approval)` and the unique constraint over case, kind and user. */
  method AddApproval(db: Session, a: Approval) returns (r: Result<()>)
    modifies db`approvals
    ensures Meets(db.Contents(), r, Refunds.InsertApproval(old(db.Contents()), a))
    ensures r == Err(UniqueViolation) <==>
              exists b :: b in old(db.approvals) && b.caseId == a.caseId && b.kind == a.kind && b.user == a.user
    ensures db.approvals == if r.Ok? then old(db.approvals) + [a] else old(db.approvals)
  {
    if exists b :: b in db.approvals && b.caseId == a.caseId && b.kind == a.kind && b.user == a.user {
      return Err(UniqueViolation);
    }
    db.approvals := db.approvals + [a];
    r := Ok(());
  }

  method PlanRefund(db: Session, c: CaseId, now: Time, e: EventId) returns (r: Result<()>)
    requires c in db.cases
    modifies db
    ensures Meets(db.Contents(), r, Refunds.PlanRefund(old(db.Contents()), c, now, e))
    ensures old(db.cases)[c].approved.None? ==> r == Err(Conflict)
    ensures old(db.cases)[c].approved.Some? && c in old(db.attempts) ==> r.Ok? && db.Contents() == old(db.Contents())
  {
    var row := db.cases[c];
    if row.approved.None? {
      return Err(Conflict);
    }
    if c in db.attempts {
      return Ok(());
    }
    var attempt := Attempt(row.org, RefundV1(c), row.approved.value, row.currency, Planned, None, 0, None);
    db.attempts := db.attempts[c := attempt];
    var _ :- CaseStoreService.CasTransition(db, c, row, RefundPending, None, true, row.version, None, RefundPlanned);
    r := OutboxService.Enqueue(db, e, row.org, RefundDispatch, c, now);
  }

  /** The end of `approve_refund`: the case is approved and the refund planned. */
  method ApproveAndPlan(db: Session, context: Context, c: CaseId, read: CaseRow, expected: int, amount: int,
                        now: Time, e: EventId) returns (r: Result<()>)
    modifies db
    ensures Meets(db.Contents(), r,
                  Refunds.ApproveAndPlan(old(db.Contents()), context, c, read, expected, amount, now, e))
  {
    var _ :- CaseStoreService.CasTransition(db, c, read, RefundApproved, Some(context), false, expected,
                                            Some(amount), RefundApprovedByFinance);
    if c !in db.cases {
      return Err(RuntimeFailure);
    }
    r := PlanRefund(db, c, now, e);
  }

  /** The first of two approvals. */
  method RecordFirstApproval(db: Session, context: Context, c: CaseId, read: CaseRow, amount: int)
    returns (r: Result<()>)
    modifies db
    ensures Meets(db.Contents(), r, Refunds.RecordFirstApproval(old(db.Contents()), context, c, read, amount))
    ensures r == Err(VersionConflict) <==>
              !(&& c in old(db.cases) && old(db.cases)[c].org == read.org
                && old(db.cases)[c].version == read.version && old(db.cases)[c].status == read.status)
  {
    var affected := CaseStoreService.GuardedUpdate(db, c, read, read.status, read.version + 1, None);
    if affected != 1 {
      return Err(VersionConflict);
    }
    var _ :- AddApproval(db, Approval(context.org, c, RefundApproval, Approved, context.user, Some(amount)));
    db.RecordAudit(AuditRow(context.org, Some(context.user), FirstApprovalRecorded, CaseResource(c), None, None));
    r := Ok(());
  }

  /** `approve_refund` from the case and the approvals it has read, which may be outdated by now. */
  method ApproveAsRead(settings: Settings, db: Session, context: Context, c: CaseId, expected: int, amount: int,
                       read: CaseRow, approvals: seq<Approval>, now: Time, e: EventId) returns (r: Result<bool>)
    modifies db
    ensures MeetsWith(db.Contents(), r, Refunds.ApproveRefund(settings, old(db.Contents()), context, c, expected,
                                                              amount, read, approvals, now, e))
  {
    if !HasRole(context, {Finance}) {
      return Err(PermissionDenied);
    }
    if read.status != Inspected {
      return Err(Conflict);
    }
    if expected != read.version {
      return Err(VersionConflict);
    }
    var _ :- AssertApprovedAmount(read.requested, amount);
    var high := amount >= settings.highValueThreshold;
    if approvals == [] {
      if high {
        var _ :- RecordFirstApproval(db, context, c, read, amount);
        return Ok(true);
      }
      var _ :- AddApproval(db, Approval(context.org, c, RefundApproval, Approved, context.user, Some(amount)));
    } else {
      var first := approvals[0];
      if !high || first.amount != Some(amount) {
        return Err(Conflict);
      }
      if first.user == context.user {
        return Err(PermissionDenied);
      }
      if |approvals| >= 2 {
        return Err(Conflict);
      }
      var _ :- AddApproval(db, Approval(context.org, c, HighValueSecond, Approved, context.user, Some(amount)));
    }
    var _ :- ApproveAndPlan(db, context, c, read, expected, amount, now, e);
    r := Ok(false);
  }

  /** `approve_refund` */
  method ApproveRefund(settings: Settings, db: Session, context: Context, c: CaseId, expected: int, amount: int,
                       now: Time, e: EventId) returns (r: Result<bool>)
    modifies db
    ensures MeetsWith(db.Contents(), r, Returns.Exec(settings, old(db.Contents()), context,
                                                     Returns.Command(c, expected, Returns.ApproveRefundOf(amount)),
                                                     now, e))
  {
    if !HasRole(context, {Finance}) {
      return Err(PermissionDenied);
    }
    var read :- CaseStoreService.GetCase(db, context, c);
    r := ApproveAsRead(settings, db, context, c, expected, amount, read, RefundApprovals(db.approvals, c), now, e);
  }

  /** `retry_failed_refund` from the case and the attempt it has read. */
  method RetryAsRead(db: Session, context: Context, c: CaseId, expected: int, read: CaseRow, seen: Option<Attempt>,
                     now: Time, e: EventId) returns (r: Result<()>)
    modifies db
    ensures Meets(db.Contents(), r,
                  Refunds.RetryFailedRefund(old(db.Contents()), context, c, expected, read, seen, now, e))
  {
    if !HasRole(context, {Finance}) {
      return Err(PermissionDenied);
    }
    if read.status != NeedsReconciliation {
      return Err(Conflict);
    }
    if expected != read.version {
      return Err(VersionConflict);
    }
    if seen.None? {
      return Err(Conflict);
    }
    if seen.value.status != Failed {
      return Err(Conflict);
    }
    if c !in db.attempts {
      return Err(RuntimeFailure);
    }
    db.attempts := db.attempts[c := db.attempts[c].(status := Planned)];
    var _ :- CaseStoreService.CasTransition(db, c, read, RefundPending, None, true, expected, None, RetryAuthorized);
    r := OutboxService.Enqueue(db, e, context.org, RefundDispatch, c, now);
  }
}
