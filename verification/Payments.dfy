/** What the `mark_*` functions of `services/payments.py` do to the database. Each works on the
    attempt of case `c`; `snap` is the case row the function has loaded. */
module Payments {
  import opened Domain
  import opened Tables
  import opened CaseStore

  function AttemptAudited(db: Db, c: CaseId, action: Action): Db
    requires c in db.attempts
  {
    Audited(db, AuditRow(db.attempts[c].org, None, action, AttemptResource(c), None, None))
  }

  function WithAttempt(db: Db, c: CaseId, attempt: Attempt): Db {
    db.(attempts := db.attempts[c := attempt])
  }

  /** `_load_case_for_attempt` */
  predicate CaseLoads(db: Db, c: CaseId) {
    c in db.attempts && c in db.cases && db.cases[c].org == db.attempts[c].org
  }

  predicate MayDispatch(status: AttemptStatus) {
    status in {Planned, Failed, Dispatching}
  }

  function MarkDispatching(db: Db, c: CaseId): Result<Db>
    requires c in db.attempts
  {
    var attempt := db.attempts[c];
    if !MayDispatch(attempt.status) then Err(RuntimeFailure)
    else
      var db1 := WithAttempt(db, c, attempt.(status := Dispatching, dispatchCount := attempt.dispatchCount + 1));
      Ok(if attempt.status == Dispatching then AttemptAudited(db1, c, DispatchRecovered) else db1)
  }

  function MarkKnownFailure(db: Db, c: CaseId): Db
    requires c in db.attempts
  {
    AttemptAudited(WithAttempt(db, c, db.attempts[c].(status := Failed)), c, DispatchKnownFailure)
  }

  function MarkUnknown(db: Db, c: CaseId): Result<Db>
    requires c in db.attempts
  {
    if !CaseLoads(db, c) then Err(RuntimeFailure)
    else
      var snap := db.cases[c];
      var db1 := WithAttempt(db, c, db.attempts[c].(status := Unknown));
      var db2 :- if snap.status == RefundPending then SystemTransition(db1, c, snap, RefundUnknown) else Ok(db1);
      Ok(AttemptAudited(db2, c, OutcomeUnknown))
  }

  /** The checks of `mark_success`: the evidence must agree with the recorded intent. */
  predicate EvidenceAgrees(attempt: Attempt, providerRef: string, evidence: Evidence) {
    && providerRef != ""
    && evidence.ProviderEvidence?
    && (evidence.amount.Some? ==> evidence.amount.value == attempt.amount)
    && (evidence.currency.Some? ==> Upper(evidence.currency.value) == Upper(attempt.currency))
    && (attempt.status == Succeeded && attempt.providerRef.Some? && attempt.providerRef.value != ""
        ==> attempt.providerRef.value == providerRef)
  }

  function ConfirmedAttempt(attempt: Attempt, providerRef: string, evidence: Evidence): Attempt {
    attempt.(status := Succeeded, providerRef := Some(providerRef), evidence := Some(evidence))
  }

  /** `mark_success`; `seen` is the attempt as the caller read it and `snap` the case. */
  function MarkSuccess(db: Db, c: CaseId, seen: Attempt, snap: CaseRow, providerRef: string, evidence: Evidence)
    : Result<Db>
    requires c in db.attempts
  {
    if !EvidenceAgrees(seen, providerRef, evidence) then Err(Conflict)
    else
      var db1 := WithAttempt(db, c, ConfirmedAttempt(db.attempts[c], providerRef, evidence));
      var db2 :- if snap.status == RefundPending || Uncertain(snap.status)
                 then SystemTransition(db1, c, snap, Refunded) else Ok(db1);
      Ok(AttemptAudited(db2, c, ProviderConfirmed))
  }

  function MarkManualReconciliationNeeded(db: Db, c: CaseId, snap: CaseRow): Result<Db>
    requires c in db.attempts
  {
    var db1 :- if snap.status == RefundPending || snap.status == RefundUnknown
               then SystemTransition(db, c, snap, NeedsReconciliation) else Ok(db);
    Ok(AttemptAudited(db1, c, ManualReconciliationRequired))
  }

  /** The row after `current` has been marked as known to have failed by a caller that has read it as
      `seen`: of the two columns only one whose value differs from the one read is written. */
  function AbsentAttempt(current: Attempt, seen: Attempt): Attempt {
    current.(status := if seen.status == Failed then current.status else Failed,
             evidence := if seen.evidence == Some(LookupNotFound) then current.evidence else Some(LookupNotFound))
  }

  function MarkAuthoritativelyNotFound(db: Db, c: CaseId, seen: Attempt, snap: CaseRow): Result<Db>
    requires c in db.attempts
  {
    var db1 := WithAttempt(db, c, AbsentAttempt(db.attempts[c], seen));
    MarkManualReconciliationNeeded(db1, c, snap)
  }
}
