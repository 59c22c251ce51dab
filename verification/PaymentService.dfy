/** The `mark_*` functions of `services/payments.py` in their own form. The attempt is that of case `c`. */
module PaymentService {
  import opened Domain
  import opened Tables
  import opened Sessions
  import CaseStoreService
  import Payments

  /** `_load_case_for_attempt` */
  method LoadCaseForAttempt(db: Session, c: CaseId) returns (r: Result<CaseRow>)
    requires c in db.attempts
    ensures r == if c in db.cases && db.cases[c].org == db.attempts[c].org then Ok(db.cases[c]) else Err(RuntimeFailure)
  {
    if c !in db.cases || db.cases[c].org != db.attempts[c].org {
      return Err(RuntimeFailure);
    }
    r := Ok(db.cases[c]);
  }

  /** The audit row each of these functions ends with: of the attempt's organization, with no user. */
  method RecordAttemptAudit(db: Session, c: CaseId, action: Action)
    requires c in db.attempts
    modifies db`audit
    ensures db.Contents() == Payments.AttemptAudited(old(db.Contents()), c, action)
    ensures db.audit == old(db.audit) + [AuditRow(db.attempts[c].org, None, action, AttemptResource(c), None, None)]
  {
    db.RecordAudit(AuditRow(db.attempts[c].org, None, action, AttemptResource(c), None, None));
  }

  /** The log ends with a row about the attempt, which belongs to `org`. */
  predicate EndsWith(audit: seq<AuditRow>, org: Uuid, c: CaseId, action: Action) {
    |audit| > 0 && audit[|audit| - 1] == AuditRow(org, None, action, AttemptResource(c), None, None)
  }

  method MarkDispatching(db: Session, c: CaseId) returns (r: Result<()>)
    requires c in db.attempts
    modifies db
    ensures Meets(db.Contents(), r, Payments.MarkDispatching(old(db.Contents()), c))
    ensures r == if old(db.attempts)[c].status in {Planned, Failed, Dispatching} then Ok(()) else Err(RuntimeFailure)
    ensures r.Ok? ==>
              var a := old(db.attempts)[c];
              && db.attempts == old(db.attempts)[c := a.(status := Dispatching, dispatchCount := a.dispatchCount + 1)]
              && db.audit == old(db.audit)
                             + if a.status != Dispatching then []
                               else [AuditRow(a.org, None, DispatchRecovered, AttemptResource(c), None, None)]
  {
    var attempt := db.attempts[c];
    if attempt.status !in {Planned, Failed, Dispatching} {
      return Err(RuntimeFailure);
    }
    var recovering := attempt.status == Dispatching;
    attempt := attempt.(status := Dispatching);
    attempt := attempt.(dispatchCount := attempt.dispatchCount + 1);
    db.attempts := db.attempts[c := attempt];
    if recovering {
      RecordAttemptAudit(db, c, DispatchRecovered);
    }
    r := Ok(());
  }

  method MarkKnownFailure(db: Session, c: CaseId)
    requires c in db.attempts
    modifies db
    ensures db.Contents() == Payments.MarkKnownFailure(old(db.Contents()), c)
    ensures db.attempts == old(db.attempts)[c := old(db.attempts)[c].(status := Failed)]
    ensures db.audit == old(db.audit) + [AuditRow(old(db.attempts)[c].org, None, DispatchKnownFailure,
                                                  AttemptResource(c), None, None)]
  {
    db.attempts := db.attempts[c := db.attempts[c].(status := Failed)];
    RecordAttemptAudit(db, c, DispatchKnownFailure);
  }

  method MarkUnknown(db: Session, c: CaseId) returns (r: Result<()>)
    requires c in db.attempts
    modifies db
    ensures Meets(db.Contents(), r, Payments.MarkUnknown(old(db.Contents()), c))
    ensures r.Ok? ==>
              && db.attempts == old(db.attempts)[c := old(db.attempts)[c].(status := Unknown)]
              && EndsWith(db.audit, old(db.attempts)[c].org, c, OutcomeUnknown)
  {
    db.attempts := db.attempts[c := db.attempts[c].(status := Unknown)];
    var loaded :- LoadCaseForAttempt(db, c);
    if loaded.status == RefundPending {
      var moved := CaseStoreService.SystemTransition(db, c, loaded, RefundUnknown);
      assert moved.Ok?;
    }
    RecordAttemptAudit(db, c, OutcomeUnknown);
    r := Ok(());
  }

  /** `mark_success`; `seen` and `loaded` are the attempt and the case as the transaction knows them. */
  method MarkSuccess(db: Session, c: CaseId, seen: Attempt, loaded: CaseRow, providerRef: string, evidence: Evidence)
    returns (r: Result<()>)
    requires c in db.attempts
    modifies db
    ensures Meets(db.Contents(), r, Payments.MarkSuccess(old(db.Contents()), c, seen, loaded, providerRef, evidence))
    ensures r == Err(Conflict) ==> db.Contents() == old(db.Contents())
    ensures r.Ok? ==>
              && db.attempts == old(db.attempts)[c := old(db.attempts)[c].(status := Succeeded,
                                                                           providerRef := Some(providerRef),
                                                                           evidence := Some(evidence))]
              && EndsWith(db.audit, old(db.attempts)[c].org, c, ProviderConfirmed)
  {
    var _ :- CheckEvidence(seen, providerRef, evidence);
    var attempt := db.attempts[c].(status := Succeeded);
    attempt := attempt.(providerRef := Some(providerRef));
    attempt := attempt.(evidence := Some(evidence));
    db.attempts := db.attempts[c := attempt];
    if loaded.status in {RefundPending, RefundUnknown, NeedsReconciliation} {
      var _ :- CaseStoreService.SystemTransition(db, c, loaded, Refunded);
    }
    RecordAttemptAudit(db, c, ProviderConfirmed);
    r := Ok(());
  }

  /** The four refusals at the head of `mark_success`. */
  method CheckEvidence(seen: Attempt, providerRef: string, evidence: Evidence) returns (r: Result<()>)
    ensures r == if Payments.EvidenceAgrees(seen, providerRef, evidence) then Ok(()) else Err(Conflict)
    ensures r.Ok? <==>
              && providerRef != "" && evidence.ProviderEvidence?
              && (evidence.amount.None? || evidence.amount == Some(seen.amount))
              && (evidence.currency.None? || Upper(evidence.currency.value) == Upper(seen.currency))
              && (seen.status != Succeeded || seen.providerRef in {None, Some(""), Some(providerRef)})
  {
    if providerRef == "" || !evidence.ProviderEvidence? {
      return Err(Conflict);
    }
    if evidence.amount.Some? && evidence.amount.value != seen.amount {
      return Err(Conflict);
    }
    if evidence.currency.Some? && Upper(evidence.currency.value) != Upper(seen.currency) {
      return Err(Conflict);
    }
    if seen.status == Succeeded && seen.providerRef.Some? && seen.providerRef.value != ""
       && seen.providerRef.value != providerRef {
      return Err(Conflict);
    }
    r := Ok(());
  }

  method MarkManualReconciliationNeeded(db: Session, c: CaseId, loaded: CaseRow) returns (r: Result<()>)
    requires c in db.attempts
    modifies db
    ensures Meets(db.Contents(), r, Payments.MarkManualReconciliationNeeded(old(db.Contents()), c, loaded))
    ensures r.Ok? ==>
              && db.attempts == old(db.attempts)
              && EndsWith(db.audit, old(db.attempts)[c].org, c, ManualReconciliationRequired)
  {
    if loaded.status in {RefundPending, RefundUnknown} {
      var _ :- CaseStoreService.SystemTransition(db, c, loaded, NeedsReconciliation);
    }
    RecordAttemptAudit(db, c, ManualReconciliationRequired);
    r := Ok(());
  }

  /** `seen` is the attempt as the session has loaded it: the flush writes the columns that changed. */
  method MarkAuthoritativelyNotFound(db: Session, c: CaseId, seen: Attempt, loaded: CaseRow) returns (r: Result<()>)
    requires c in db.attempts
    modifies db
    ensures Meets(db.Contents(), r, Payments.MarkAuthoritativelyNotFound(old(db.Contents()), c, seen, loaded))
    ensures r.Ok? && seen.status != Failed && seen.evidence != Some(LookupNotFound) ==>
              && db.attempts == old(db.attempts)[c := old(db.attempts)[c].(status := Failed,
                                                                           evidence := Some(LookupNotFound))]
              && EndsWith(db.audit, old(db.attempts)[c].org, c, ManualReconciliationRequired)
  {
    var attempt := db.attempts[c];
    if seen.status != Failed {
      attempt := attempt.(status := Failed);
    }
    if seen.evidence != Some(LookupNotFound) {
      attempt := attempt.(evidence := Some(LookupNotFound));
    }
    db.attempts := db.attempts[c := attempt];
    r := MarkManualReconciliationNeeded(db, c, loaded);
  }
}
