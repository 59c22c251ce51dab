/** `services/webhooks.py` and `services/reconciliation.py` in their own form. */
module EvidenceService {
  import opened Domain
  import opened Tables
  import opened Sessions
  import opened Provider
  import opened Cells
  import opened Ledger
  import Confirmation
  import PaymentService

  /** The unique constraint on `provider_idempotency_key`. */
  ghost predicate KeysUnique(attempts: map<CaseId, Attempt>) {
    forall c, d :: c in attempts && d in attempts && attempts[c].key == attempts[d].key ==> c == d
  }

  lemma KeysAreUnique(settings: Settings, db: Db)
    requires DbInv(settings, db)
    ensures KeysUnique(db.attempts)
  {
    forall c | c in db.attempts ensures db.attempts[c].key == RefundV1(c) {
      assert CellOk(settings, c, CellOf(db, c));
    }
  }

  method FindAttemptByKey(attempts: map<CaseId, Attempt>, key: ProviderKey) returns (found: Option<CaseId>)
    requires KeysUnique(attempts)
    ensures found == Confirmation.AttemptByKey(attempts, key)
  {
    if c :| c in attempts && attempts[c].key == key {
      return Some(c);
    }
    found := None;
  }

  /** `process_payment_webhook`; the answer is `replayed`. */
  method ProcessWebhook(db: Session, p: Payload) returns (r: Result<bool>)
    requires KeysUnique(db.attempts)
    modifies db
    ensures MeetsWith(db.Contents(), r, Confirmation.ProcessWebhook(old(db.Contents()), p))
  {
    if p.eventId == "" {
      return Err(Conflict);
    }
    if p.eventId in db.receipts {
      if db.receipts[p.eventId] != p {
        return Err(Conflict);
      }
      return Ok(true);
    }
    db.receipts := db.receipts[p.eventId := p];
    var found := FindAttemptByKey(db.attempts, p.key);
    if found.None? {
      return Err(NotFound);
    }
    var c := found.value;
    if p.status == PaymentSucceeded {
      if p.refundId == "" {
        return Err(Conflict);
      }
      var loaded :- PaymentService.LoadCaseForAttempt(db, c);
      var evidence := ProviderEvidence(p.eventId, p.refundId, p.amount, p.currency);
      var _ :- PaymentService.MarkSuccess(db, c, db.attempts[c], loaded, p.refundId, evidence);
    }
    r := Ok(false);
  }

  /** `reconcile_unknown_refund` up to the lookup: the case and the attempt it will decide on. */
  method BeginReconciliation(db: Session, context: Context, c: CaseId) returns (r: Result<(CaseRow, Attempt)>)
    ensures r == Confirmation.BeginReconciliation(db.Contents(), context, c)
  {
    if !HasRole(context, {Finance}) {
      return Err(PermissionDenied);
    }
    if c !in db.cases || db.cases[c].org != context.org {
      return Err(NotFound);
    }
    if db.cases[c].status !in {RefundUnknown, NeedsReconciliation} {
      return Err(Conflict);
    }
    if c !in db.attempts || db.attempts[c].org != context.org {
      return Err(NotFound);
    }
    r := Ok((db.cases[c], db.attempts[c]));
  }

  /** `reconcile_unknown_refund` after the lookup has answered `observed`; the answer is what the operator is
      told. */
  method FinishReconciliation(db: Session, c: CaseId, read: CaseRow, seen: Attempt, observed: Option<ProviderRow>)
    returns (r: Result<Confirmation.Resolution>)
    requires c in db.attempts
    modifies db
    ensures MeetsWith(db.Contents(), r, Confirmation.Reconcile(old(db.Contents()), c, read, seen,
                        if observed.Some? then Confirmation.Found(observed.value) else Confirmation.Absent))
    ensures r.Ok? ==>
              && (r.value.ConfirmedSuccess? <==> observed.Some? && observed.value.status == PaymentSucceeded)
              && (r.value.NonTerminal? <==> observed.Some? && observed.value.status != PaymentSucceeded)
              && (r.value.ConfirmedAbsent? <==> observed.None? && seen.status == Unknown)
              && (r.value.ManualReview? <==> observed.None? && seen.status != Unknown)
  {
    if observed.Some? {
      var row := observed.value;
      if row.status == PaymentSucceeded {
        var _ :- PaymentService.MarkSuccess(db, c, seen, read, row.refundId,
                                            ProviderEvidence("", row.refundId, Some(row.amount), Some(row.currency)));
        return Ok(Confirmation.ConfirmedSuccess);
      }
      var _ :- PaymentService.MarkManualReconciliationNeeded(db, c, read);
      return Ok(Confirmation.NonTerminal);
    }
    if seen.status == Unknown {
      var _ :- PaymentService.MarkAuthoritativelyNotFound(db, c, seen, read);
      return Ok(Confirmation.ConfirmedAbsent);
    }
    var _ :- PaymentService.MarkManualReconciliationNeeded(db, c, read);
    r := Ok(Confirmation.ManualReview);
  }
}
