/** One turn of a worker that nobody interferes with: what it leaves behind, row by row, and when it raises. */
module Turns {
  import opened Domain
  import opened Tables
  import opened Payments
  import opened Provider
  import opened Worker
  import opened Ledger
  import opened Settlement
  import opened Protocol
  import opened Dispatch
  import opened Tabulated
  import R = Reference

  /** The attempt of event `e`, about to be dispatched, has lost its case, and what becomes of the call needs
      the case. */
  predicate CaseMissed(settings: Settings, db: Db, e: EventId, fate: Fate)
    requires e in db.events && db.events[e].caseId in db.attempts
  {
    && db.attempts[db.events[e].caseId].status in {Planned, Failed, Dispatching}
    && !CaseLoads(db, db.events[e].caseId)
    && !(fate == RefusedUnprocessed && db.events[e].attempts < settings.maxDispatchAttempts)
  }

  lemma SettlesExactly(settings: Settings, db: Db, e: EventId, fate: Fate, refunds: ProviderTable, now: Time)
    requires e in db.events && db.events[e].caseId in db.attempts
    requires db.attempts[db.events[e].caseId].status == Dispatching
    requires ReachesProvider(fate) ==> db.attempts[db.events[e].caseId].key in refunds
    ensures SettleBy(settings, db, e, fate, refunds, now).Ok? <==> !CaseMissed(settings, db, e, fate)
    ensures SettleBy(settings, db, e, fate, refunds, now).Err? ==>
              SettleBy(settings, db, e, fate, refunds, now) == Err(RuntimeFailure)
  {
    if CaseLoads(db, db.events[e].caseId) {
      TimeoutAsTabulated(db, e);
      RefusalAsTabulated(settings, db, e, now);
      if fate == Delivered {
        RepliesAsTabulated(db, e, refunds[db.attempts[db.events[e].caseId].key]);
      }
    }
  }

  lemma BegunKeepsLoading(settings: Settings, db: Db, e: EventId, fate: Fate, db1: Db)
    requires e in db.events && BeginDispatch(db, e) == Ok((db1, true))
    ensures db1.events == db.events && db.events[e].caseId in db.attempts && db.events[e].caseId in db1.attempts
    ensures db1.attempts[db.events[e].caseId].status == Dispatching
    ensures CaseMissed(settings, db, e, fate) <==> CaseMissed(settings, db1, e, fate)
  {
  }

  /** `process_event` raises exactly when a refund event has no attempt, or its attempt has lost the case that
      the settlement needs. */
  lemma RaisesExactly(settings: Settings, db: Db, refunds: ProviderTable, e: EventId, fate: Fate, freshId: string,
                      now: Time)
    requires e in db.events
    ensures Raised(settings, db, refunds, e, fate, freshId, now)
         == if db.events[e].topic != RefundDispatch then None
            else if db.events[e].caseId !in db.attempts then Some(NotFound)
            else if CaseMissed(settings, db, e, fate) then Some(RuntimeFailure)
            else None
  {
    if db.events[e].topic == RefundDispatch && db.events[e].caseId in db.attempts {
      BeginAsTabulated(db, e);
    }
    if BeginDispatch(db, e).Ok? && BeginDispatch(db, e).value.1 {
      var db1 := BeginDispatch(db, e).value.0;
      BegunDispatch(db, e, db1);
      BegunKeepsLoading(settings, db, e, fate, db1);
      var refunds1 := AfterCall(refunds, RequestFor(db1, db.events[e].caseId), fate, freshId);
      SettlesExactly(settings, db1, e, fate, refunds1, now);
    }
  }

  /** Under the invariant of the tables no worker ever raises. */
  lemma WorkersDoNotRaise(settings: Settings, db: Db, refunds: ProviderTable, e: EventId, fate: Fate, freshId: string,
                          now: Time)
    requires DbInv(settings, db) && e in db.events
    ensures Raised(settings, db, refunds, e, fate, freshId, now) == None
  {
    AttemptOfEvent(settings, db, e);
    RaisesExactly(settings, db, refunds, e, fate, freshId, now);
  }

  /* What is left behind. */

  lemma SettledAsTold(settings: Settings, db: Db, e: EventId, fate: Fate, refunds: ProviderTable, now: Time)
    requires e in db.events && CaseLoads(db, db.events[e].caseId)
    requires ReachesProvider(fate) ==> db.attempts[db.events[e].caseId].key in refunds
    ensures SettleBy(settings, db, e, fate, refunds, now) == Ok(AfterFate(settings, db, e, fate, refunds, now))
  {
    TimeoutAsTabulated(db, e);
    RefusalAsTabulated(settings, db, e, now);
    if fate == Delivered {
      RepliesAsTabulated(db, e, refunds[db.attempts[db.events[e].caseId].key]);
    }
  }

  /** The tables once the call has come to this: a reply confirms or contradicts, a refusal is known, and
      whatever else becomes of request or reply is a timeout. */
  function AfterFate(settings: Settings, db: Db, e: EventId, fate: Fate, refunds: ProviderTable, now: Time): Db
    requires e in db.events && CaseLoads(db, db.events[e].caseId)
    requires fate == Delivered ==> db.attempts[db.events[e].caseId].key in refunds
  {
    match fate
    case Delivered =>
      var a := db.attempts[db.events[e].caseId];
      var row := refunds[a.key];
      if R.Contradicts(a, row.refundId, R.Quote(row, "")) then R.ContradictedTables(db, e)
      else R.ConfirmedTables(db, e, row)
    case RefusedUnprocessed => R.RefusedTables(settings, db, e, now)
    case ReplyLost => R.TimedOutTables(db, e)
    case RequestVanished => R.TimedOutTables(db, e)
  }

  /** What the provider holds: one more post exactly when the request has reached it. */
  function HeldAfter(refunds: ProviderTable, a: Attempt, c: CaseId, fate: Fate, freshId: string): ProviderTable {
    if fate in {Delivered, ReplyLost} then Stored(refunds, RefundRequest(a.key, a.amount, a.currency, c), freshId)
    else refunds
  }

  lemma BegunAsTold(db: Db, e: EventId, db1: Db)
    requires e in db.events && CaseLoads(db, db.events[e].caseId) && db.events[e].topic == RefundDispatch
    requires BeginDispatch(db, e) == Ok((db1, true))
    ensures db1 == R.Begun(db, e) && CaseLoads(db1, db.events[e].caseId) && db1.events == db.events
    ensures db.attempts[db.events[e].caseId].status !in {Succeeded, Unknown}
    ensures db1.attempts[db.events[e].caseId].key == db.attempts[db.events[e].caseId].key
    ensures RequestFor(db1, db.events[e].caseId)
         == RefundRequest(db.attempts[db.events[e].caseId].key, db.attempts[db.events[e].caseId].amount,
                          db.attempts[db.events[e].caseId].currency, db.events[e].caseId)
  {
    BeginAsTabulated(db, e);
  }

  /** `process_event` as a whole, on tables that satisfy the invariant: an outcome on record ends the event, and
      otherwise the dispatch is recorded, the request is the attempt's, and the fate of the call is settled. */
  lemma TurnsAsTold(settings: Settings, db: Db, refunds: ProviderTable, e: EventId, fate: Fate, freshId: string,
                    now: Time)
    requires DbInv(settings, db) && e in db.events
    ensures var c := db.events[e].caseId;
            c in db.attempts &&
            if db.attempts[c].status in {Succeeded, Unknown}
            then Processed(settings, db, refunds, e, fate, freshId, now)
              == (R.Finished(db, e, EventStatus.Done), refunds)
            else
              var held, begun := HeldAfter(refunds, db.attempts[c], c, fate, freshId), R.Begun(db, e);
              && CaseLoads(begun, c) && (fate == Delivered ==> begun.attempts[c].key in held)
              && Processed(settings, db, refunds, e, fate, freshId, now)
                 == (AfterFate(settings, begun, e, fate, held, now), held)
  {
    AttemptOfEvent(settings, db, e);
    var c := db.events[e].caseId;
    BeginAsTabulated(db, e);
    if db.attempts[c].status !in {Succeeded, Unknown} {
      var begun := BeginDispatch(db, e).value.0;
      BegunAsTold(db, e, begun);
      BegunDispatch(db, e, begun);
      SettledAsTold(settings, begun, e, fate, AfterCall(refunds, RequestFor(begun, c), fate, freshId), now);
    }
  }
}
