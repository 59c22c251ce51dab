/** Evidence arriving from outside: `services/webhooks.py` and `services/reconciliation.py`. */
module Confirmation {
  import opened Domain
  import opened Tables
  import opened CaseStore
  import opened Payments
  import opened Provider

  function PayloadEvidence(p: Payload): Evidence {
    ProviderEvidence(p.eventId, p.refundId, p.amount, p.currency)
  }

  /** The attempt whose provider key is `key`; the column is unique. */
  ghost function AttemptByKey(attempts: map<CaseId, Attempt>, key: ProviderKey): (r: Option<CaseId>)
    ensures r.Some? ==> r.value in attempts && attempts[r.value].key == key
    ensures r.None? ==> forall c :: c in attempts ==> attempts[c].key != key
  {
    if c :| c in attempts && attempts[c].key == key then Some(c) else None
  }

  /** `process_payment_webhook`; the flag of the result is `replayed`. */
  ghost function ProcessWebhook(db: Db, p: Payload): Result<(Db, bool)> {
    if p.eventId == "" then Err(Conflict)
    else if p.eventId in db.receipts then
      if db.receipts[p.eventId] != p then Err(Conflict) else Ok((db, true))
    else
      var db1 := db.(receipts := db.receipts[p.eventId := p]);
      var target := AttemptByKey(db.attempts, p.key);
      if target.None? then Err(NotFound)
      else
        var c := target.value;
        if p.status != PaymentSucceeded then Ok((db1, false))
        else if p.refundId == "" then Err(Conflict)
        else if !CaseLoads(db1, c) then Err(RuntimeFailure)
        else
          var db2 :- MarkSuccess(db1, c, db1.attempts[c], db1.cases[c], p.refundId, PayloadEvidence(p));
          Ok((db2, false))
  }

  /** What `provider.lookup_by_idempotency_key` has answered. */
  datatype Observation = NotAsked | Absent | Found(row: ProviderRow)

  datatype Resolution = ConfirmedSuccess | NonTerminal | ConfirmedAbsent | ManualReview

  /** The first query of `reconcile_unknown_refund`: the case, which must be uncertain. */
  function ReadUncertainCase(db: Db, context: Context, c: CaseId): Result<CaseRow> {
    if !HasRole(context, {Finance}) then Err(PermissionDenied)
    else if !(c in db.cases && db.cases[c].org == context.org) then Err(NotFound)
    else if !Uncertain(db.cases[c].status) then Err(Conflict)
    else Ok(db.cases[c])
  }

  /** The second query, by a statement of its own: the attempt. */
  function ReadItsAttempt(db: Db, context: Context, c: CaseId): Result<Attempt> {
    match AttemptOf(db, context, c)
    case None => Err(NotFound)
    case Some(attempt) => Ok(attempt)
  }

  /** Both queries with nothing between them. */
  function BeginReconciliation(db: Db, context: Context, c: CaseId): Result<(CaseRow, Attempt)> {
    var row :- ReadUncertainCase(db, context, c);
    var attempt :- ReadItsAttempt(db, context, c);
    Ok((row, attempt))
  }

  predicate MayReconcile(db: Db, context: Context, c: CaseId) {
    BeginReconciliation(db, context, c).Ok?
  }

  /** `reconcile_unknown_refund` after the lookup: `snap` and `seen` were read before it. */
  function Reconcile(db: Db, c: CaseId, snap: CaseRow, seen: Attempt, observed: Observation)
    : Result<(Db, Resolution)>
    requires c in db.attempts && !observed.NotAsked?
  {
    match observed
    case Found(row) =>
      if row.status == PaymentSucceeded then
        var db1 :- MarkSuccess(db, c, seen, snap, row.refundId, EvidenceOf(row, ""));
        Ok((db1, ConfirmedSuccess))
      else
        var db1 :- MarkManualReconciliationNeeded(db, c, snap);
        Ok((db1, NonTerminal))
    case Absent =>
      if seen.status == Unknown then
        var db1 :- MarkAuthoritativelyNotFound(db, c, seen, snap);
        Ok((db1, ConfirmedAbsent))
      else
        var db1 :- MarkManualReconciliationNeeded(db, c, snap);
        Ok((db1, ManualReview))
  }
}
