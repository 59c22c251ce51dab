/** `services/worker.py` in its own form. */
module WorkerService {
  import opened Domain
  import opened Tables
  import opened Sessions
  import opened Provider
  import opened ProviderService
  import Outbox
  import OutboxService
  import PaymentService
  import Worker
  import Protocol
  import opened Dispatch

  /** What one turn of the worker meets: the fate of its call, the refund id the provider would draw,
      and the time at which it settles. */
  datatype Turn = Turn(fate: Fate, freshId: string, now: Time)

  /** `process_event` up to the commit before the network call; the answer tells whether to call. */
  method BeginDispatch(db: Session, e: EventId) returns (r: Result<bool>)
    requires e in db.events
    modifies db
    ensures MeetsWith(db.Contents(), r, Worker.BeginDispatch(old(db.Contents()), e))
  {
    var event := db.events[e];
    if event.topic != RefundDispatch {
      OutboxService.DeadLetter(db, e);
      return Ok(false);
    }
    if event.caseId !in db.attempts {
      return Err(NotFound);
    }
    if db.attempts[event.caseId].status == Succeeded {
      OutboxService.MarkDone(db, e);
      return Ok(false);
    }
    if db.attempts[event.caseId].status == Unknown {
      OutboxService.MarkDone(db, e);
      return Ok(false);
    }
    var _ :- PaymentService.MarkDispatching(db, event.caseId);
    r := Ok(true);
  }

  /** A settlement leaves the event and its attempt in these statuses, and no lease. */
  predicate Left(events: map<EventId, Event>, attempts: map<CaseId, Attempt>, e: EventId, event: EventStatus,
                 attempt: AttemptStatus)
  {
    && e in events && events[e].status == event && events[e].leaseUntil.None?
    && events[e].caseId in attempts && attempts[events[e].caseId].status == attempt
  }

  /** The reply was 503. */
  method SettleRefused(settings: Settings, db: Session, e: EventId, now: Time) returns (r: Result<()>)
    requires e in db.events && db.events[e].caseId in db.attempts
    modifies db
    ensures Meets(db.Contents(), r, Worker.SettleRefused(settings, old(db.Contents()), e, now))
    ensures r.Ok? ==> Left(db.events, db.attempts, e,
                           if old(db.events)[e].attempts >= settings.maxDispatchAttempts then Dead else Pending,
                           AttemptStatus.Failed)
  {
    var event := db.events[e];
    PaymentService.MarkKnownFailure(db, event.caseId);
    if event.attempts >= settings.maxDispatchAttempts {
      var loaded :- PaymentService.LoadCaseForAttempt(db, event.caseId);
      var manual := PaymentService.MarkManualReconciliationNeeded(db, event.caseId, loaded);
      assert manual.Ok?;
      OutboxService.DeadLetter(db, e);
    } else {
      OutboxService.Reschedule(db, e, now, Outbox.Backoff(event.attempts));
    }
    r := Ok(());
  }

  /** No usable reply has come: a timeout, a lost connection, or an answer that makes no sense. */
  method SettleTimeout(db: Session, e: EventId) returns (r: Result<()>)
    requires e in db.events && db.events[e].caseId in db.attempts
    modifies db
    ensures Meets(db.Contents(), r, Worker.SettleTimeout(old(db.Contents()), e))
    ensures r.Ok? ==>
              var before := old(db.attempts)[old(db.events)[e].caseId].status;
              Left(db.events, db.attempts, e, Done, if before == Succeeded then Succeeded else Unknown)
  {
    var c := db.events[e].caseId;
    if db.attempts[c].status != Succeeded {
      var _ :- PaymentService.MarkUnknown(db, c);
    }
    OutboxService.MarkDone(db, e);
    r := Ok(());
  }

  /** The reply was 200 and carried `row`. */
  method SettleReply(db: Session, e: EventId, row: ProviderRow) returns (r: Result<()>)
    requires e in db.events && db.events[e].caseId in db.attempts
    modifies db
    ensures Meets(db.Contents(), r, Worker.SettleReply(old(db.Contents()), e, row))
    ensures r.Ok? ==> || Left(db.events, db.attempts, e, Done, Succeeded)
                      || Left(db.events, db.attempts, e, Dead, Unknown)
  {
    var c := db.events[e].caseId;
    var loaded :- PaymentService.LoadCaseForAttempt(db, c);
    var evidence := ProviderEvidence("", row.refundId, Some(row.amount), Some(row.currency));
    var marked := PaymentService.MarkSuccess(db, c, db.attempts[c], loaded, row.refundId, evidence);
    if marked.Ok? {
      OutboxService.MarkDone(db, e);
      return marked;
    }
    if marked.error != Conflict {
      return marked;
    }
    var unknown := PaymentService.MarkUnknown(db, c);
    assert unknown.Ok?;
    var again := PaymentService.LoadCaseForAttempt(db, c);
    assert again.Ok?;
    var manual := PaymentService.MarkManualReconciliationNeeded(db, c, again.value);
    assert manual.Ok?;
    OutboxService.DeadLetter(db, e);
    r := Ok(());
  }

  /** The provider is asked, and what has become of the call is settled. */
  method CallAndSettle(settings: Settings, db: Session, provider: PaymentProvider, e: EventId, turn: Turn)
    returns (r: Result<()>)
    requires e in db.events && db.events[e].caseId in db.attempts && provider.Valid()
    modifies db, provider
    ensures provider.Valid()
    ensures var request := Protocol.RequestFor(old(db.Contents()), old(db.events)[e].caseId);
            && provider.refunds == AfterCall(old(provider.refunds), request, turn.fate, turn.freshId)
            && Meets(db.Contents(), r,
                     SettleBy(settings, old(db.Contents()), e, turn.fate, provider.refunds, turn.now))
  {
    var attempt := db.attempts[db.events[e].caseId];
    var request := RefundRequest(attempt.key, attempt.amount, attempt.currency, db.events[e].caseId);
    if turn.fate == RequestVanished {
      r := SettleTimeout(db, e);
      return;
    }
    var reply := provider.CreateRefund(request, turn.fate == RefusedUnprocessed, turn.freshId);
    if reply.None? {
      r := SettleRefused(settings, db, e, turn.now);
    } else if turn.fate == ReplyLost {
      r := SettleTimeout(db, e);
    } else {
      SameReply(db.Contents(), e, reply.value, provider.refunds[request.key]);
      r := SettleReply(db, e, reply.value);
    }
  }

  /** The post count plays no part in a settlement. */
  lemma SameReply(db: Db, e: EventId, row: ProviderRow, stored: ProviderRow)
    requires e in db.events && db.events[e].caseId in db.attempts
    requires stored.(postCount := row.postCount) == row
    ensures Worker.SettleReply(db, e, row) == Worker.SettleReply(db, e, stored)
  {
    assert EvidenceOf(row, "") == EvidenceOf(stored, "");
  }

  /** `process_event`: the intent is committed before the network is used. What is committed on an
      error, and what is there to be committed on success, is what `Processed` says. */
  method ProcessEvent(settings: Settings, db: Session, provider: PaymentProvider, e: EventId, turn: Turn)
    returns (r: Result<()>)
    requires e in db.events && db.Contents() == db.database.tables && provider.Valid()
    modifies db, db.database, provider
    ensures provider.Valid()
    ensures var (after, refunds) := Processed(settings, old(db.Contents()), old(provider.refunds), e, turn.fate,
                                              turn.freshId, turn.now);
            && provider.refunds == refunds
            && (if r.Ok? then db.Contents() else db.database.tables) == after
    ensures (if r.Err? then Some(r.error) else None)
         == Raised(settings, old(db.Contents()), old(provider.refunds), e, turn.fate, turn.freshId, turn.now)
  {
    var call :- BeginDispatch(db, e);
    if !call {
      return Ok(());
    }
    BegunDispatch(old(db.Contents()), e, db.Contents());
    db.Commit();
    r := CallAndSettle(settings, db, provider, e, turn);
  }

  /** One event in a session of its own: `process_event`, then commit or rollback. */
  method ProcessInSession(settings: Settings, database: Database, provider: PaymentProvider, e: EventId, turn: Turn)
    returns (processed: bool)
    requires provider.Valid()
    modifies database, provider
    ensures provider.Valid() && processed == Workable(old(database.tables), e)
    ensures (database.tables, provider.refunds)
         == if processed
            then Processed(settings, old(database.tables), old(provider.refunds), e, turn.fate, turn.freshId, turn.now)
            else (old(database.tables), old(provider.refunds))
  {
    var db := new Session(database);
    if e !in db.events || db.events[e].status != Processing {
      return false;
    }
    var r := ProcessEvent(settings, db, provider, e, turn);
    if r.Ok? {
      db.Commit();
    } else {
      db.Rollback();
    }
    processed := true;
  }

  /** The event is still in processing when its turn comes. */
  predicate Workable(db: Db, e: EventId) {
    e in db.events && db.events[e].status == Processing
  }

  /** A batch worked off in order: the tables, the refunds, and how many events were processed. */
  function WorkedOff(settings: Settings, db: Db, refunds: ProviderTable, batch: seq<EventId>, turns: seq<Turn>)
    : (Db, ProviderTable, nat)
    requires |turns| >= |batch|
  {
    if batch == [] then (db, refunds, 0)
    else
      var last := |batch| - 1;
      var (db1, refunds1, n) := WorkedOff(settings, db, refunds, batch[..last], turns);
      if Workable(db1, batch[last]) then
        var turn := turns[last];
        var (db2, refunds2) := Processed(settings, db1, refunds1, batch[last], turn.fate, turn.freshId, turn.now);
        (db2, refunds2, n + 1)
      else (db1, refunds1, n)
  }

  /* Each event of a batch finds its turn. */

  lemma RefusedElsewhere(settings: Settings, db: Db, e: EventId, now: Time, d: EventId)
    requires e in db.events && db.events[e].caseId in db.attempts && d in db.events && d != e
    ensures var r := Worker.SettleRefused(settings, db, e, now);
            r.Ok? ==> d in r.value.events && r.value.events[d] == db.events[d]
  {
  }

  lemma ReplyElsewhere(db: Db, e: EventId, row: ProviderRow, d: EventId)
    requires e in db.events && db.events[e].caseId in db.attempts && d in db.events && d != e
    ensures var r := Worker.SettleReply(db, e, row);
            r.Ok? ==> d in r.value.events && r.value.events[d] == db.events[d]
  {
  }

  lemma SettledElsewhere(settings: Settings, db: Db, e: EventId, fate: Fate, refunds: ProviderTable, now: Time,
                         d: EventId)
    requires e in db.events && db.events[e].caseId in db.attempts && d in db.events && d != e
    requires ReachesProvider(fate) ==> db.attempts[db.events[e].caseId].key in refunds
    ensures var r := SettleBy(settings, db, e, fate, refunds, now);
            r.Ok? ==> d in r.value.events && r.value.events[d] == db.events[d]
  {
    RefusedElsewhere(settings, db, e, now, d);
    if fate == Delivered {
      ReplyElsewhere(db, e, refunds[db.attempts[db.events[e].caseId].key], d);
    }
  }

  /** A turn changes no event but its own. */
  lemma ProcessedElsewhere(settings: Settings, db: Db, refunds: ProviderTable, e: EventId, turn: Turn, d: EventId)
    requires e in db.events && d in db.events && d != e
    ensures var db' := Processed(settings, db, refunds, e, turn.fate, turn.freshId, turn.now).0;
            d in db'.events && db'.events[d] == db.events[d]
  {
    if Worker.BeginDispatch(db, e).Ok? && Worker.BeginDispatch(db, e).value.1 {
      var begun := Worker.BeginDispatch(db, e).value.0;
      BegunDispatch(db, e, begun);
      var refunds1 := AfterCall(refunds, Protocol.RequestFor(begun, db.events[e].caseId), turn.fate, turn.freshId);
      SettledElsewhere(settings, begun, e, turn.fate, refunds1, turn.now, d);
    }
  }

  /** Every event of a batch is still in processing when its turn comes, and every one counts. */
  lemma {:induction false} AllAreProcessed(settings: Settings, db: Db, refunds: ProviderTable, batch: seq<EventId>,
                                           turns: seq<Turn>, d: EventId)
    requires |turns| >= |batch| && forall i, j :: 0 <= i < j < |batch| ==> batch[i] != batch[j]
    requires forall e :: e in batch ==> Workable(db, e)
    ensures WorkedOff(settings, db, refunds, batch, turns).2 == |batch|
    ensures Workable(db, d) && d !in batch ==> Workable(WorkedOff(settings, db, refunds, batch, turns).0, d)
    decreases |batch|
  {
    if batch != [] {
      var last := |batch| - 1;
      var front, e := batch[..last], batch[last];
      AllAreProcessed(settings, db, refunds, front, turns, e);
      AllAreProcessed(settings, db, refunds, front, turns, d);
      var (db1, refunds1, _) := WorkedOff(settings, db, refunds, front, turns);
      if Workable(db, d) && d !in batch {
        ProcessedElsewhere(settings, db1, refunds1, e, turns[last], d);
      }
    }
  }

  /** The first `i` events of the batch have been worked off. */
  predicate Progress(settings: Settings, db: Db, refunds: ProviderTable, batch: seq<EventId>, turns: seq<Turn>, i: nat,
                     tables: Db, held: ProviderTable, processed: nat)
    requires i <= |batch| <= |turns|
  {
    (tables, held, processed) == WorkedOff(settings, db, refunds, batch[..i], turns)
  }

  lemma OneMore(settings: Settings, db: Db, refunds: ProviderTable, batch: seq<EventId>, turns: seq<Turn>, i: nat,
                tables: Db, held: ProviderTable, processed: nat, tables': Db, held': ProviderTable)
    requires i < |batch| <= |turns| && Progress(settings, db, refunds, batch, turns, i, tables, held, processed)
    requires var turn := turns[i];
             (tables', held') == if Workable(tables, batch[i])
                                 then Processed(settings, tables, held, batch[i], turn.fate, turn.freshId, turn.now)
                                 else (tables, held)
    ensures Progress(settings, db, refunds, batch, turns, i + 1, tables', held',
                     if Workable(tables, batch[i]) then processed + 1 else processed)
  {
    assert batch[..i + 1][..i] == batch[..i];
  }

  lemma LeasedTables(db: Db, db': Db, now: Time, leaseSeconds: int, batch: seq<EventId>)
    requires db' == db.(events := db'.events) && db'.events.Keys == db.events.Keys
    requires forall e :: e in db'.events ==>
               db'.events[e] == if e in batch then Outbox.Claimed(db.events[e], now, leaseSeconds) else db.events[e]
    ensures db' == LeasedBatch(db, now, leaseSeconds, batch)
  {
    assert db'.events == LeasedBatch(db, now, leaseSeconds, batch).events;
  }

  /** The first transaction of `run_once`. */
  method LeaseBatch(settings: Settings, database: Database, now: Time, locked: set<EventId>, limit: nat)
    returns (batch: seq<EventId>)
    modifies database
    ensures OutboxService.Selected(old(database.tables).events, now, locked, limit, batch)
    ensures database.tables == LeasedBatch(old(database.tables), now, settings.leaseSeconds, batch)
  {
    var db := new Session(database);
    batch := OutboxService.ClaimBatch(db, now, locked, limit, settings.leaseSeconds);
    db.Commit();
    LeasedTables(old(database.tables), database.tables, now, settings.leaseSeconds, batch);
  }

  /** `run_once`: a batch is leased and committed, then worked off event by event. */
  method RunOnce(settings: Settings, database: Database, provider: PaymentProvider, now: Time, locked: set<EventId>,
                 limit: nat, turns: seq<Turn>) returns (processed: nat, ghost batch: seq<EventId>)
    requires |turns| >= limit && provider.Valid()
    modifies database, provider
    ensures provider.Valid()
    ensures OutboxService.Selected(old(database.tables).events, now, locked, limit, batch)
    ensures processed == |batch| <= limit
    ensures (database.tables, provider.refunds, processed)
         == WorkedOff(settings, LeasedBatch(old(database.tables), now, settings.leaseSeconds, batch),
                      old(provider.refunds), batch, turns)
  {
    var events := LeaseBatch(settings, database, now, locked, limit);
    batch := events;
    ghost var claimed := database.tables;
    processed := 0;
    for i := 0 to |events|
      invariant processed <= i && provider.Valid()
      invariant Progress(settings, claimed, old(provider.refunds), events, turns, i, database.tables, provider.refunds,
                         processed)
    {
      ghost var tables, held := database.tables, provider.refunds;
      var done := ProcessInSession(settings, database, provider, events[i], turns[i]);
      OneMore(settings, claimed, old(provider.refunds), events, turns, i, tables, held, processed, database.tables,
              provider.refunds);
      if done {
        processed := processed + 1;
      }
    }
    assert events[..|events|] == events;
    AllAreProcessed(settings, claimed, old(provider.refunds), events, turns, 0);
  }

  /** The tables with every event of the batch leased. */
  function LeasedBatch(db: Db, now: Time, leaseSeconds: int, batch: seq<EventId>): Db {
    db.(events := map e | e in db.events ::
                    if e in batch then Outbox.Claimed(db.events[e], now, leaseSeconds) else db.events[e])
  }

  /** `process_event_once`; an error is raised to the caller, who has committed nothing more. */
  method ProcessEventOnce(settings: Settings, database: Database, provider: PaymentProvider, now: Time,
                          locked: set<EventId>, e: EventId, turn: Turn) returns (r: Result<bool>)
    requires provider.Valid()
    modifies database, provider
    ensures provider.Valid()
    ensures var before := old(database.tables);
            if !OutboxService.Selectable(before.events, now, locked, e)
            then r == Ok(false) && database.tables == before && provider.refunds == old(provider.refunds)
            else
              var claimed := Worker.WithEvent(before, e, Outbox.Claimed(before.events[e], now, settings.leaseSeconds));
              && (r.Ok? ==> r.value)
              && (if r.Err? then Some(r.error) else None)
                 == Raised(settings, claimed, old(provider.refunds), e, turn.fate, turn.freshId, turn.now)
              && (database.tables, provider.refunds)
                 == Processed(settings, claimed, old(provider.refunds), e, turn.fate, turn.freshId, turn.now)
  {
    var db := new Session(database);
    var claimed := OutboxService.ClaimEvent(db, now, locked, e, settings.leaseSeconds);
    if !claimed {
      return Ok(false);
    }
    db.Commit();
    db := new Session(database);
    if e !in db.events || db.events[e].status != Processing {
      return Ok(false);
    }
    var _ :- ProcessEvent(settings, db, provider, e, turn);
    db.Commit();
    r := Ok(true);
  }
}
