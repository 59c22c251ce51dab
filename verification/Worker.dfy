/** The three steps of `process_event` in `services/worker.py`, on the database. */
module Worker {
  import opened Domain
  import opened Tables
  import opened Outbox
  import opened Payments
  import opened Provider

  function WithEvent(db: Db, e: EventId, event: Event): Db {
    db.(events := db.events[e := event])
  }

  /** Up to the commit that precedes the network call. The flag tells whether the call is made. */
  function BeginDispatch(db: Db, e: EventId): Result<(Db, bool)>
    requires e in db.events
  {
    var event := db.events[e];
    if event.topic != RefundDispatch then Ok((WithEvent(db, e, DeadLetter(event)), false))
    else if event.caseId !in db.attempts then Err(NotFound)
    else if db.attempts[event.caseId].status in {Succeeded, Unknown} then
      Ok((WithEvent(db, e, MarkDone(event)), false))
    else
      var db1 :- MarkDispatching(db, event.caseId);
      Ok((db1, true))
  }

  /** Reply 503: refused before processing. */
  function SettleRefused(settings: Settings, db: Db, e: EventId, now: Time): Result<Db>
    requires e in db.events && db.events[e].caseId in db.attempts
  {
    var event := db.events[e];
    var c := event.caseId;
    var db1 := MarkKnownFailure(db, c);
    if event.attempts >= settings.maxDispatchAttempts then
      if !CaseLoads(db1, c) then Err(RuntimeFailure)
      else
        var db2 :- MarkManualReconciliationNeeded(db1, c, db1.cases[c]);
        Ok(WithEvent(db2, e, DeadLetter(event)))
    else
      Ok(WithEvent(db1, e, Rescheduled(event, now, Backoff(event.attempts))))
  }

  /** No usable reply: the outcome is unknown unless success has been committed meanwhile. */
  function SettleTimeout(db: Db, e: EventId): Result<Db>
    requires e in db.events && db.events[e].caseId in db.attempts
  {
    var event := db.events[e];
    var db1 :- if db.attempts[event.caseId].status != Succeeded then MarkUnknown(db, event.caseId) else Ok(db);
    Ok(WithEvent(db1, e, MarkDone(event)))
  }

  /** Reply 200 carrying `row`. */
  function SettleReply(db: Db, e: EventId, row: ProviderRow): Result<Db>
    requires e in db.events && db.events[e].caseId in db.attempts
  {
    var event := db.events[e];
    var c := event.caseId;
    if !CaseLoads(db, c) then Err(RuntimeFailure)
    else if EvidenceAgrees(db.attempts[c], row.refundId, EvidenceOf(row, "")) then
      var db1 :- MarkSuccess(db, c, db.attempts[c], db.cases[c], row.refundId, EvidenceOf(row, ""));
      Ok(WithEvent(db1, e, MarkDone(event)))
    else
      var db1 :- MarkUnknown(db, c);
      if !CaseLoads(db1, c) then Err(RuntimeFailure)
      else
        var db2 :- MarkManualReconciliationNeeded(db1, c, db1.cases[c]);
        Ok(WithEvent(db2, e, DeadLetter(event)))
  }
}
