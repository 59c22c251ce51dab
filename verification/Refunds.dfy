/** What `services/refunds.py` does to the database. The case and the approvals a command decides
    on are parameters: they were read before the guarded write, perhaps by other statements. */
module Refunds {
  import opened Domain
  import opened Tables
  import opened CaseStore
  import opened Outbox

  /** Unique over (case, kind, user). */
  function InsertApproval(db: Db, a: Approval): Result<Db> {
    if exists b :: b in db.approvals && b.caseId == a.caseId && b.kind == a.kind && b.user == a.user
    then Err(UniqueViolation)
    else Ok(db.(approvals := db.approvals + [a]))
  }

  function NewAttempt(c: CaseId, row: CaseRow, amount: int): Attempt {
    Attempt(row.org, RefundV1(c), amount, row.currency, Planned, None, 0, None)
  }

  /** `_plan_refund` on the case row just written. */
  function PlanRefund(db: Db, c: CaseId, now: Time, e: EventId): Result<Db>
    requires c in db.cases
  {
    var row := db.cases[c];
    if row.approved.None? then Err(Conflict)
    else if c in db.attempts then Ok(db)
    else
      var db1 := db.(attempts := db.attempts[c := NewAttempt(c, row, row.approved.value)]);
      var db2 :- CasTransition(db1, c, row, RefundPending, None, true, row.version, None, RefundPlanned);
      Enqueue(db2, e, NewEvent(row.org, RefundDispatch, c, now))
  }

  /** The transition to `RefundApproved` followed by the plan, in the same transaction. */
  function ApproveAndPlan(db: Db, context: Context, c: CaseId, snap: CaseRow, expected: int, amount: int,
                          now: Time, e: EventId): Result<Db>
  {
    var db1 :- CasTransition(db, c, snap, RefundApproved, Some(context), false, expected, Some(amount),
                             RefundApprovedByFinance);
    if c in db1.cases then PlanRefund(db1, c, now, e) else Err(RuntimeFailure)
  }

  function ApprovalBy(context: Context, c: CaseId, kind: ApprovalKind, amount: int): Approval {
    Approval(context.org, c, kind, Approved, context.user, Some(amount))
  }

  /** The first approval of a high amount: it only raises the version. */
  function RecordFirstApproval(db: Db, context: Context, c: CaseId, snap: CaseRow, amount: int): Result<Db> {
    if !GuardHolds(db, c, snap) then Err(VersionConflict)
    else
      var db1 := db.(cases := db.cases[c := db.cases[c].(version := snap.version + 1)]);
      var db2 :- InsertApproval(db1, ApprovalBy(context, c, RefundApproval, amount));
      Ok(Audited(db2, AuditRow(context.org, Some(context.user), FirstApprovalRecorded, CaseResource(c), None, None)))
  }

  /** `approve_refund` once the case and its approvals have been read. The flag of the result tells
      whether a second approval is still required. */
  function ApproveRefund(settings: Settings, db: Db, context: Context, c: CaseId, expected: int, amount: int,
                         snap: CaseRow, approvals: seq<Approval>, now: Time, e: EventId): Result<(Db, bool)>
  {
    if !HasRole(context, {Finance}) then Err(PermissionDenied)
    else if snap.status != Inspected then Err(Conflict)
    else if expected != snap.version then Err(VersionConflict)
    else
      var _ :- AssertApprovedAmount(snap.requested, amount);
      var high := amount >= settings.highValueThreshold;
      if approvals == [] then
        if high then
          var db1 :- RecordFirstApproval(db, context, c, snap, amount);
          Ok((db1, true))
        else
          var db1 :- InsertApproval(db, ApprovalBy(context, c, RefundApproval, amount));
          var db2 :- ApproveAndPlan(db1, context, c, snap, expected, amount, now, e);
          Ok((db2, false))
      else if !high then Err(Conflict)
      else if approvals[0].amount != Some(amount) then Err(Conflict)
      else if approvals[0].user == context.user then Err(PermissionDenied)
      else if |approvals| >= 2 then Err(Conflict)
      else
        var db1 :- InsertApproval(db, ApprovalBy(context, c, HighValueSecond, amount));
        var db2 :- ApproveAndPlan(db1, context, c, snap, expected, amount, now, e);
        Ok((db2, false))
  }

  /** `retry_failed_refund` once the case and then its attempt have been read. Only the status is
      written to the attempt, and no guard protects it. */
  function RetryFailedRefund(db: Db, context: Context, c: CaseId, expected: int, snap: CaseRow,
                             seen: Option<Attempt>, now: Time, e: EventId): Result<Db>
  {
    if !HasRole(context, {Finance}) then Err(PermissionDenied)
    else if snap.status != NeedsReconciliation then Err(Conflict)
    else if expected != snap.version then Err(VersionConflict)
    else if seen.None? then Err(Conflict)
    else if seen.value.status != Failed then Err(Conflict)
    else if c !in db.attempts then Err(RuntimeFailure)
    else
      var db1 := db.(attempts := db.attempts[c := db.attempts[c].(status := Planned)]);
      var db2 :- CasTransition(db1, c, snap, RefundPending, None, true, expected, None, RetryAuthorized);
      Enqueue(db2, e, NewEvent(context.org, RefundDispatch, c, now))
  }
}
