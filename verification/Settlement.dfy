/** The worker's steps, webhooks and lookups keep the database invariant (level FREE: nothing is
    assumed about who else works on the same event). */
module Settlement {
  import opened Domain
  import opened Tables
  import opened CaseStore
  import opened Outbox
  import opened Payments
  import opened Provider
  import opened Confirmation
  import opened Worker
  import opened Cells
  import opened Ledger

  /* The effect of the mark functions on the cell of their case. */

  /** Nothing but the cell of `c` has changed, and it is `cell` now. */
  ghost predicate CellBecomes(db: Db, db': Db, c: CaseId, cell: Cell) {
    OnlyCell(db, db', c) && CellOf(db', c) == cell && db'.approvals == db.approvals
  }

  lemma CellsAttemptAudited(db: Db, c: CaseId, action: Action)
    requires c in db.attempts
    ensures forall d {:trigger CellOf(AttemptAudited(db, c, action), d)} ::
              CellOf(AttemptAudited(db, c, action), d) == CellOf(db, d)
  {
    CellsAudited(db, AuditRow(db.attempts[c].org, None, action, AttemptResource(c), None, None));
  }

  function WithStatus(cell: Cell, status: AttemptStatus): Cell
    requires cell.attempt.Some?
  {
    cell.(attempt := Some(cell.attempt.value.(status := status)))
  }

  function SystemMoved(cell: Cell, target: ReturnStatus, c: CaseId): Cell
    requires cell.row.Some?
  {
    MovedCell(cell, None, target, None, SystemReturn(target), c)
  }

  lemma AttemptWritten(db: Db, c: CaseId, attempt: Attempt)
    ensures var db' := WithAttempt(db, c, attempt);
            CellBecomes(db, db', c, CellOf(db, c).(attempt := Some(attempt))) && db'.events == db.events
  {
  }

  lemma SystemTransitionCell(db: Db, c: CaseId, snap: CaseRow, target: ReturnStatus, db': Db)
    requires c in db.cases && (snap.version == db.cases[c].version ==> snap == db.cases[c])
    requires SystemTransition(db, c, snap, target) == Ok(db')
    ensures snap == db.cases[c]
    ensures CellBecomes(db, db', c, SystemMoved(CellOf(db, c), target, c))
    ensures db'.events == db.events && db'.attempts == db.attempts
  {
    CellsCaseMoved(db, c, snap, target, None, None, SystemReturn(target));
  }

  lemma KnownFailureCell(db: Db, c: CaseId)
    requires c in db.attempts
    ensures var db' := MarkKnownFailure(db, c);
            CellBecomes(db, db', c, WithStatus(CellOf(db, c), Failed)) && db'.events == db.events
  {
    var db1 := WithAttempt(db, c, db.attempts[c].(status := Failed));
    CellsAttemptAudited(db1, c, DispatchKnownFailure);
    AttemptWritten(db, c, db.attempts[c].(status := Failed));
    Chain(db, db1, MarkKnownFailure(db, c), c);
  }

  /** A rewrite of `c` followed by one that changes no cell. */
  lemma Chain(db: Db, db1: Db, db2: Db, c: CaseId)
    requires OnlyCell(db, db1, c) && forall d {:trigger CellOf(db2, d)} :: CellOf(db2, d) == CellOf(db1, d)
    ensures OnlyCell(db, db2, c) && CellOf(db2, c) == CellOf(db1, c)
  {
    forall d | d != c ensures CellOf(db2, d) == CellOf(db, d) {
      assert CellOf(db2, d) == CellOf(db1, d);
    }
  }

  function UnknownCell(cell: Cell, c: CaseId): Cell
    requires cell.attempt.Some? && cell.row.Some?
  {
    var unknown := WithStatus(cell, Unknown);
    if cell.row.value.status == RefundPending then SystemMoved(unknown, RefundUnknown, c) else unknown
  }

  lemma MarkUnknownCell(db: Db, c: CaseId, db': Db)
    requires c in db.attempts && MarkUnknown(db, c) == Ok(db')
    ensures c in db.cases
    ensures CellBecomes(db, db', c, UnknownCell(CellOf(db, c), c)) && db'.events == db.events
    ensures c in db'.attempts
  {
    var snap, attempt := db.cases[c], db.attempts[c].(status := Unknown);
    AttemptWritten(db, c, attempt);
    var db1 := WithAttempt(db, c, attempt);
    var db2 := db1;
    if snap.status == RefundPending {
      db2 := SystemTransition(db1, c, snap, RefundUnknown).value;
      SystemTransitionCell(db1, c, snap, RefundUnknown, db2);
      OnlyCellTransitive(db, db1, db2, c);
    }
    CellsAttemptAudited(db2, c, OutcomeUnknown);
    Chain(db, db2, db', c);
  }

  function ManualCell(cell: Cell, snap: CaseRow, c: CaseId): Cell
    requires cell.row.Some?
  {
    if snap.status == RefundPending || snap.status == RefundUnknown
    then SystemMoved(cell, NeedsReconciliation, c) else cell
  }

  /** `snap` is what the case row is now, or is outdated and the guard will notice. */
  predicate CurrentOrOld(db: Db, c: CaseId, snap: CaseRow) {
    c in db.cases && (snap.version == db.cases[c].version ==> snap == db.cases[c])
  }

  lemma MarkManualCell(db: Db, c: CaseId, snap: CaseRow, db': Db)
    requires c in db.attempts && CurrentOrOld(db, c, snap)
    requires MarkManualReconciliationNeeded(db, c, snap) == Ok(db')
    ensures snap.status in {RefundPending, RefundUnknown} ==> snap == db.cases[c]
    ensures CellBecomes(db, db', c, ManualCell(CellOf(db, c), snap, c)) && db'.events == db.events
  {
    var db1 := db;
    if snap.status == RefundPending || snap.status == RefundUnknown {
      db1 := SystemTransition(db, c, snap, NeedsReconciliation).value;
      SystemTransitionCell(db, c, snap, NeedsReconciliation, db1);
    }
    CellsAttemptAudited(db1, c, ManualReconciliationRequired);
    Chain(db, db1, db', c);
  }

  function SuccessCell(cell: Cell, snap: CaseRow, providerRef: string, evidence: Evidence, c: CaseId): Cell
    requires cell.attempt.Some? && cell.row.Some?
  {
    var confirmed := cell.(attempt := Some(ConfirmedAttempt(cell.attempt.value, providerRef, evidence)));
    if snap.status == RefundPending || Uncertain(snap.status) then SystemMoved(confirmed, Refunded, c) else confirmed
  }

  lemma MarkSuccessCell(db: Db, c: CaseId, seen: Attempt, snap: CaseRow, providerRef: string, evidence: Evidence,
                        db': Db)
    requires c in db.attempts && CurrentOrOld(db, c, snap)
    requires MarkSuccess(db, c, seen, snap, providerRef, evidence) == Ok(db')
    ensures snap.status == RefundPending || Uncertain(snap.status) ==> snap == db.cases[c]
    ensures CellBecomes(db, db', c, SuccessCell(CellOf(db, c), snap, providerRef, evidence, c))
    ensures db'.events == db.events && c in db'.attempts
  {
    var attempt := ConfirmedAttempt(db.attempts[c], providerRef, evidence);
    AttemptWritten(db, c, attempt);
    var db1 := WithAttempt(db, c, attempt);
    var db2 := db1;
    if snap.status == RefundPending || Uncertain(snap.status) {
      db2 := SystemTransition(db1, c, snap, Refunded).value;
      SystemTransitionCell(db1, c, snap, Refunded, db2);
      OnlyCellTransitive(db, db1, db2, c);
    }
    CellsAttemptAudited(db2, c, ProviderConfirmed);
    Chain(db, db2, db', c);
  }

  /* The cells stay well formed. */

  lemma StatusCellOk(settings: Settings, c: CaseId, cell: Cell, status: AttemptStatus)
    requires CellOk(settings, c, cell) && cell.attempt.Some?
    requires status != Succeeded
    requires cell.row.value.status == RefundPending ==> status in {Dispatching, Failed}
    ensures CellOk(settings, c, WithStatus(cell, status)) && CellEvolves(cell, WithStatus(cell, status))
  {
  }

  lemma UnknownCellOk(settings: Settings, c: CaseId, cell: Cell)
    requires CellOk(settings, c, cell) && cell.attempt.Some?
    ensures CellOk(settings, c, UnknownCell(cell, c)) && CellEvolves(cell, UnknownCell(cell, c))
    ensures !IsPending(UnknownCell(cell, c))
  {
    if cell.row.value.status == RefundPending {
      MovedCellLogOk(WithStatus(cell, Unknown), None, RefundUnknown, None, SystemReturn(RefundUnknown), c);
    }
  }

  lemma ManualCellOk(settings: Settings, c: CaseId, cell: Cell, snap: CaseRow)
    requires CellOk(settings, c, cell) && cell.attempt.Some?
    requires snap.status in {RefundPending, RefundUnknown} ==> cell.row == Some(snap)
    ensures CellOk(settings, c, ManualCell(cell, snap, c)) && CellEvolves(cell, ManualCell(cell, snap, c))
    ensures IsPending(ManualCell(cell, snap, c)) ==> IsPending(cell) && cell.row != Some(snap)
  {
    if snap.status == RefundPending || snap.status == RefundUnknown {
      MovedCellLogOk(cell, None, NeedsReconciliation, None, SystemReturn(NeedsReconciliation), c);
    }
  }

  lemma SuccessCellOk(settings: Settings, c: CaseId, cell: Cell, snap: CaseRow, providerRef: string, evidence: Evidence)
    requires CellOk(settings, c, cell) && cell.attempt.Some?
    requires if snap.status == RefundPending || Uncertain(snap.status) then cell.row == Some(snap)
             else Final(cell.row.value.status)
    requires cell.attempt.value.providerRef in {None, Some(providerRef)}
    ensures var cell' := SuccessCell(cell, snap, providerRef, evidence, c);
            && CellOk(settings, c, cell') && CellEvolves(cell, cell')
            && Final(cell'.row.value.status) && cell'.attempt.value.providerRef == Some(providerRef)
  {
    var confirmed := cell.(attempt := Some(ConfirmedAttempt(cell.attempt.value, providerRef, evidence)));
    if snap.status == RefundPending || Uncertain(snap.status) {
      MovedCellLogOk(confirmed, None, Refunded, None, SystemReturn(Refunded), c);
    }
  }

  lemma EvolvesTwice(a: Cell, b: Cell, c: Cell)
    requires CellEvolves(a, b) && CellEvolves(b, c) && a.attempt.Some?
    ensures CellEvolves(a, c)
  {
  }

  /* Lifting: the cell of `c` changes, and perhaps its event `e`. */

  lemma CellKeeps(settings: Settings, db: Db, db': Db, c: CaseId, cell: Cell)
    requires DbInv(settings, db) && CellBecomes(db, db', c, cell) && db'.events == db.events
    requires CellOk(settings, c, cell) && CellEvolves(CellOf(db, c), cell)
    requires IsPending(cell) ==> IsPending(CellOf(db, c))
    ensures Keeps(settings, db, db', c)
  {
    LiftCell(settings, db, db', c);
    LiftQuiet(settings, db, db', c);
  }

  lemma ShapeKeeps(settings: Settings, db: Db, db': Db, c: CaseId, e: EventId, event: Event)
    requires DbInv(settings, db) && OnlyCell(db, db', c) && db'.approvals == db.approvals
    requires CellOk(settings, c, CellOf(db', c)) && CellEvolves(CellOf(db, c), CellOf(db', c))
    requires e in db.events && db.events[e].caseId == c && db'.events == db.events[e := event]
    requires event.caseId == c && event.topic == db.events[e].topic && event.org == db.events[e].org
    requires IsPending(CellOf(db', c)) ==> LiveStatus(event.status)
    ensures Keeps(settings, db, db', c)
  {
    assert EventOk(CellOf(db, c), db.events[e]);
    LiftCell(settings, db, db', c);
    LiftEvents(settings, db, db', c, e);
  }

  lemma CellAndEventKeep(settings: Settings, db: Db, db1: Db, c: CaseId, cell: Cell, e: EventId, event: Event)
    requires DbInv(settings, db) && CellBecomes(db, db1, c, cell) && db1.events == db.events
    requires CellOk(settings, c, cell) && CellEvolves(CellOf(db, c), cell)
    requires e in db.events && db.events[e].caseId == c
    requires event.caseId == c && event.topic == db.events[e].topic && event.org == db.events[e].org
    requires IsPending(cell) ==> LiveStatus(event.status)
    ensures Keeps(settings, db, WithEvent(db1, e, event), c)
  {
    Chain(db, db1, WithEvent(db1, e, event), c);
    ShapeKeeps(settings, db, WithEvent(db1, e, event), c, e, event);
  }

  lemma AttemptOfEvent(settings: Settings, db: Db, e: EventId)
    requires DbInv(settings, db) && e in db.events
    ensures db.events[e].caseId in db.attempts && CaseLoads(db, db.events[e].caseId)
    ensures db.events[e].topic == RefundDispatch
    ensures CellOk(settings, db.events[e].caseId, CellOf(db, db.events[e].caseId))
  {
    assert EventOk(CellOf(db, db.events[e].caseId), db.events[e]);
    assert CellOk(settings, db.events[e].caseId, CellOf(db, db.events[e].caseId));
  }

  /* The steps. */

  lemma ClaimKeeps(settings: Settings, db: Db, e: EventId, now: Time, leaseSeconds: int)
    requires DbInv(settings, db) && e in db.events
    ensures Keeps(settings, db, WithEvent(db, e, Claimed(db.events[e], now, leaseSeconds)), db.events[e].caseId)
  {
    var c := db.events[e].caseId;
    CellAndEventKeep(settings, db, db, c, CellOf(db, c), e, Claimed(db.events[e], now, leaseSeconds));
  }

  /** A worker that finds the refund settled only closes the event. */
  lemma SkipKeeps(settings: Settings, db: Db, e: EventId, db': Db)
    requires DbInv(settings, db) && e in db.events
    requires BeginDispatch(db, e) == Ok((db', false))
    ensures Keeps(settings, db, db', db.events[e].caseId)
    ensures db' == WithEvent(db, e, MarkDone(db.events[e]))
    ensures !IsPending(CellOf(db, db.events[e].caseId))
  {
    AttemptOfEvent(settings, db, e);
    var c := db.events[e].caseId;
    CellAndEventKeep(settings, db, db, c, CellOf(db, c), e, MarkDone(db.events[e]));
  }

  /** The cell after a dispatch has been recorded. */
  function DispatchedCell(cell: Cell): Cell
    requires cell.attempt.Some?
  {
    var a := cell.attempt.value;
    cell.(attempt := Some(a.(status := Dispatching, dispatchCount := a.dispatchCount + 1)))
  }

  lemma DispatchShape(db: Db, e: EventId, db': Db)
    requires e in db.events && BeginDispatch(db, e) == Ok((db', true))
    ensures var c := db.events[e].caseId;
            && c in db.attempts && MayDispatch(db.attempts[c].status)
            && CellBecomes(db, db', c, DispatchedCell(CellOf(db, c)))
            && db'.events == db.events && db'.cases == db.cases
  {
    var c := db.events[e].caseId;
    var a := db.attempts[c].(status := Dispatching, dispatchCount := db.attempts[c].dispatchCount + 1);
    var db1 := WithAttempt(db, c, a);
    AttemptWritten(db, c, a);
    if db.attempts[c].status == Dispatching {
      CellsAttemptAudited(db1, c, DispatchRecovered);
      Chain(db, db1, db', c);
    }
  }

  /** A dispatch is the one step that changes a dispatch count, and it adds one. */
  lemma DispatchKeeps(settings: Settings, db: Db, e: EventId, db': Db)
    requires DbInv(settings, db) && e in db.events
    requires BeginDispatch(db, e) == Ok((db', true))
    ensures var c := db.events[e].caseId;
            && DbInv(settings, db') && OnlyCell(db, db', c) && db'.events == db.events
            && c in db.attempts && MayDispatch(db.attempts[c].status)
            && CellOf(db', c) == DispatchedCell(CellOf(db, c))
            && db'.cases == db.cases && db'.approvals == db.approvals
  {
    DispatchShape(db, e, db');
    DispatchLift(settings, db, db', db.events[e].caseId);
  }

  lemma DispatchLift(settings: Settings, db: Db, db': Db, c: CaseId)
    requires DbInv(settings, db) && OnlyCell(db, db', c) && CellOf(db, c).attempt.Some?
    requires CellOf(db', c) == DispatchedCell(CellOf(db, c))
    requires db'.approvals == db.approvals && db'.events == db.events
    ensures DbInv(settings, db')
  {
    forall d ensures CellOk(settings, d, CellOf(db', d)) {
      assert CellOk(settings, d, CellOf(db, d));
    }
    LiftQuiet(settings, db, db', c);
    forall i | 0 <= i < |db'.approvals|
      ensures ApprovalRowOk(CellOf(db', db'.approvals[i].caseId), db'.approvals[i])
    {
      var d := db.approvals[i].caseId;
      assert CellOf(db', d).row == CellOf(db, d).row;
    }
    forall x | x in db'.events ensures EventOk(CellOf(db', db'.events[x].caseId), db'.events[x]) {
      assert EventOk(CellOf(db, db.events[x].caseId), db.events[x]);
    }
  }

  /** The cell after a refusal; the last allowed one sends the case to a human. */
  function RefusedCell(settings: Settings, cell: Cell, attempts: int, c: CaseId): Cell
    requires cell.attempt.Some? && cell.row.Some?
  {
    var failed := WithStatus(cell, Failed);
    if attempts >= settings.maxDispatchAttempts then ManualCell(failed, cell.row.value, c) else failed
  }

  lemma RefusedCellOk(settings: Settings, c: CaseId, cell: Cell, attempts: int)
    requires CellOk(settings, c, cell) && cell.attempt.Some?
    ensures var cell' := RefusedCell(settings, cell, attempts, c);
            && CellOk(settings, c, cell') && CellEvolves(cell, cell')
            && (attempts >= settings.maxDispatchAttempts ==> !IsPending(cell'))
  {
    StatusCellOk(settings, c, cell, Failed);
    if attempts >= settings.maxDispatchAttempts {
      ManualCellOk(settings, c, WithStatus(cell, Failed), cell.row.value);
    }
  }

  function RefusedEvent(settings: Settings, event: Event, now: Time): Event {
    if event.attempts >= settings.maxDispatchAttempts then DeadLetter(event)
    else Rescheduled(event, now, Backoff(event.attempts))
  }

  lemma RefusedShape(settings: Settings, db: Db, e: EventId, now: Time, db': Db)
    requires e in db.events && db.events[e].caseId in db.attempts && CaseLoads(db, db.events[e].caseId)
    requires SettleRefused(settings, db, e, now) == Ok(db')
    ensures var event, c := db.events[e], db.events[e].caseId;
            && CellBecomes(db, db', c, RefusedCell(settings, CellOf(db, c), event.attempts, c))
            && db'.events == db.events[e := RefusedEvent(settings, event, now)]
  {
    var c := db.events[e].caseId;
    KnownFailureCell(db, c);
    if db.events[e].attempts >= settings.maxDispatchAttempts {
      var db2 := GivenUpTables(settings, db, e, now, db');
      GivenUpCell(settings, db, c, db.events[e].attempts, MarkKnownFailure(db, c), db2);
      Chain(db, db2, db', c);
    } else {
      Chain(db, MarkKnownFailure(db, c), db', c);
    }
  }

  lemma GivenUpTables(settings: Settings, db: Db, e: EventId, now: Time, db': Db) returns (db2: Db)
    requires e in db.events && db.events[e].caseId in db.attempts && CaseLoads(db, db.events[e].caseId)
    requires SettleRefused(settings, db, e, now) == Ok(db')
    requires db.events[e].attempts >= settings.maxDispatchAttempts
    ensures var c := db.events[e].caseId;
            var db1 := MarkKnownFailure(db, c);
            && c in db1.cases && c in db1.attempts
            && MarkManualReconciliationNeeded(db1, c, db1.cases[c]) == Ok(db2)
            && db' == WithEvent(db2, e, DeadLetter(db.events[e]))
  {
    var c := db.events[e].caseId;
    var db1 := MarkKnownFailure(db, c);
    db2 := MarkManualReconciliationNeeded(db1, c, db1.cases[c]).value;
  }

  lemma GivenUpCell(settings: Settings, db: Db, c: CaseId, attempts: int, db1: Db, db2: Db)
    requires c in db.attempts && c in db.cases && c in db1.cases && c in db1.attempts
    requires CellBecomes(db, db1, c, WithStatus(CellOf(db, c), Failed))
    requires attempts >= settings.maxDispatchAttempts
    requires MarkManualReconciliationNeeded(db1, c, db1.cases[c]) == Ok(db2)
    ensures CellBecomes(db, db2, c, RefusedCell(settings, CellOf(db, c), attempts, c)) && db2.events == db1.events
  {
    MarkManualCell(db1, c, db1.cases[c], db2);
    OnlyCellTransitive(db, db1, db2, c);
  }

  lemma SettleRefusedKeeps(settings: Settings, db: Db, e: EventId, now: Time, db': Db)
    requires DbInv(settings, db) && e in db.events && db.events[e].caseId in db.attempts
    requires SettleRefused(settings, db, e, now) == Ok(db')
    ensures Keeps(settings, db, db', db.events[e].caseId)
  {
    AttemptOfEvent(settings, db, e);
    var event, c := db.events[e], db.events[e].caseId;
    RefusedShape(settings, db, e, now, db');
    RefusedCellOk(settings, c, CellOf(db, c), event.attempts);
    ShapeKeeps(settings, db, db', c, e, RefusedEvent(settings, event, now));
  }

  lemma TimeoutShape(db: Db, e: EventId, db': Db)
    requires e in db.events && db.events[e].caseId in db.attempts && CaseLoads(db, db.events[e].caseId)
    requires SettleTimeout(db, e) == Ok(db')
    ensures var c := db.events[e].caseId;
            && CellBecomes(db, db', c, if db.attempts[c].status == Succeeded then CellOf(db, c)
                                       else UnknownCell(CellOf(db, c), c))
            && db'.events == db.events[e := MarkDone(db.events[e])]
  {
    var c := db.events[e].caseId;
    if db.attempts[c].status != Succeeded {
      var db1 := MarkUnknown(db, c).value;
      MarkUnknownCell(db, c, db1);
      Chain(db, db1, db', c);
    }
  }

  lemma SettleTimeoutKeeps(settings: Settings, db: Db, e: EventId, db': Db)
    requires DbInv(settings, db) && e in db.events && db.events[e].caseId in db.attempts
    requires SettleTimeout(db, e) == Ok(db')
    ensures Keeps(settings, db, db', db.events[e].caseId)
  {
    var c := db.events[e].caseId;
    AttemptOfEvent(settings, db, e);
    TimeoutShape(db, e, db');
    UnknownCellOk(settings, c, CellOf(db, c));
    ShapeKeeps(settings, db, db', c, e, MarkDone(db.events[e]));
  }

  /** The provider's row says what the attempt of `c` asked for. */
  predicate RowMatches(row: ProviderRow, a: Attempt) {
    && row.refundId != ""
    && row.amount == a.amount
    && row.currency == a.currency
    && row.status == PaymentSucceeded
    && a.providerRef in {None, Some(row.refundId)}
  }

  lemma ReplyShape(settings: Settings, db: Db, e: EventId, row: ProviderRow, db': Db)
    requires e in db.events && db.events[e].caseId in db.attempts && CaseLoads(db, db.events[e].caseId)
    requires CellOk(settings, db.events[e].caseId, CellOf(db, db.events[e].caseId))
    requires RowMatches(row, db.attempts[db.events[e].caseId])
    requires SettleReply(db, e, row) == Ok(db')
    ensures var c := db.events[e].caseId;
            && CellBecomes(db, db', c,
                           SuccessCell(CellOf(db, c), db.cases[c], row.refundId, EvidenceOf(row, ""), c))
            && CellOk(settings, c, CellOf(db', c)) && CellEvolves(CellOf(db, c), CellOf(db', c))
            && Final(CellOf(db', c).row.value.status)
            && CellOf(db', c).attempt.value.providerRef == Some(row.refundId)
            && db'.events == db.events[e := MarkDone(db.events[e])]
  {
    var c := db.events[e].caseId;
    var db1 := MarkSuccess(db, c, db.attempts[c], db.cases[c], row.refundId, EvidenceOf(row, "")).value;
    MarkSuccessCell(db, c, db.attempts[c], db.cases[c], row.refundId, EvidenceOf(row, ""), db1);
    SuccessCellOk(settings, c, CellOf(db, c), db.cases[c], row.refundId, EvidenceOf(row, ""));
    Chain(db, db1, db', c);
  }

  lemma SettleReplyKeeps(settings: Settings, db: Db, e: EventId, row: ProviderRow, db': Db)
    requires DbInv(settings, db) && e in db.events && db.events[e].caseId in db.attempts
    requires RowMatches(row, db.attempts[db.events[e].caseId])
    requires SettleReply(db, e, row) == Ok(db')
    ensures Keeps(settings, db, db', db.events[e].caseId)
    ensures var c := db.events[e].caseId;
            c in db'.attempts && db'.attempts[c].providerRef == Some(row.refundId)
  {
    AttemptOfEvent(settings, db, e);
    ReplyShape(settings, db, e, row, db');
    ShapeKeeps(settings, db, db', db.events[e].caseId, e, MarkDone(db.events[e]));
  }

  lemma ConfirmKeeps(settings: Settings, db: Db, c: CaseId, seen: Attempt, snap: CaseRow, providerRef: string,
                     evidence: Evidence, db': Db)
    requires DbInv(settings, db) && c in db.attempts && CurrentOrOld(db, c, snap)
    requires db.attempts[c].providerRef in {None, Some(providerRef)}
    requires PastApproval(snap.status) && (Final(snap.status) ==> snap == db.cases[c])
    requires MarkSuccess(db, c, seen, snap, providerRef, evidence) == Ok(db')
    ensures Keeps(settings, db, db', c)
    ensures c in db'.attempts && db'.attempts[c].providerRef == Some(providerRef)
  {
    assert CellOk(settings, c, CellOf(db, c));
    MarkSuccessCell(db, c, seen, snap, providerRef, evidence, db');
    SuccessCellOk(settings, c, CellOf(db, c), snap, providerRef, evidence);
    CellKeeps(settings, db, db', c, CellOf(db', c));
  }

  /** A webhook that repeats a provider row keeps the invariant. */
  lemma WebhookKeeps(settings: Settings, db: Db, row: ProviderRow, c: CaseId, eventId: string, r: (Db, bool))
    requires DbInv(settings, db) && c in db.attempts && RowMatches(row, db.attempts[c])
    requires ProcessWebhook(db, PayloadOf(row, RefundV1(c), eventId)) == Ok(r)
    ensures Keeps(settings, db, r.0, c)
    ensures !r.1 ==> c in r.0.attempts && r.0.attempts[c].providerRef == Some(row.refundId)
    ensures r.1 ==> r.0 == db
  {
    var p := PayloadOf(row, RefundV1(c), eventId);
    assert CellOk(settings, c, CellOf(db, c));
    if !r.1 {
      var d := AttemptByKey(db.attempts, RefundV1(c)).value;
      assert CellOk(settings, d, CellOf(db, d));
      assert d == c;
      var db1 := db.(receipts := db.receipts[eventId := p]);
      ReceiptKeeps(settings, db, db1);
      ConfirmKeeps(settings, db1, c, db1.attempts[c], db1.cases[c], p.refundId, PayloadEvidence(p), r.0);
      SameCellsThen(settings, db, db1, r.0, c);
    }
  }

  lemma ReceiptKeeps(settings: Settings, db: Db, db1: Db)
    requires DbInv(settings, db) && db1 == db.(receipts := db1.receipts)
    ensures forall d {:trigger CellOf(db1, d)} :: CellOf(db1, d) == CellOf(db, d)
    ensures DbInv(settings, db1)
  {
    assert forall d :: CellOf(db1, d) == CellOf(db, d);
  }

  lemma SameCellsThen(settings: Settings, db: Db, db1: Db, db2: Db, c: CaseId)
    requires forall d {:trigger CellOf(db1, d)} :: CellOf(db1, d) == CellOf(db, d)
    requires db1.events == db.events && Keeps(settings, db1, db2, c)
    ensures Keeps(settings, db, db2, c)
  {
    forall d ensures CellEvolves(CellOf(db, d), CellOf(db2, d)) && (d != c ==> CellOf(db2, d) == CellOf(db, d)) {
      assert CellOf(db1, d) == CellOf(db, d);
    }
  }

  /** A lookup that commits on old reads keeps the invariant. */
  lemma ReconcileKeeps(settings: Settings, db: Db, c: CaseId, snap: CaseRow, seen: Attempt, observed: Observation,
                       r: (Db, Resolution))
    requires DbInv(settings, db) && c in db.attempts && CurrentOrOld(db, c, snap) && Uncertain(snap.status)
    requires !observed.NotAsked? && (observed.Found? ==> RowMatches(observed.row, db.attempts[c]))
    requires Reconcile(db, c, snap, seen, observed) == Ok(r)
    ensures Keeps(settings, db, r.0, c)
    ensures observed.Found? ==> c in r.0.attempts && r.0.attempts[c].providerRef == Some(observed.row.refundId)
  {
    assert CellOk(settings, c, CellOf(db, c));
    if observed.Found? {
      ConfirmKeeps(settings, db, c, seen, snap, observed.row.refundId, EvidenceOf(observed.row, ""), r.0);
    } else if seen.status == Unknown {
      var a := AbsentAttempt(db.attempts[c], seen);
      var db1 := WithAttempt(db, c, a);
      AttemptWritten(db, c, a);
      MarkManualCell(db1, c, snap, r.0);
      ManualCellOk(settings, c, CellOf(db1, c), snap);
      OnlyCellTransitive(db, db1, r.0, c);
      EvolvesTwice(CellOf(db, c), CellOf(db1, c), CellOf(r.0, c));
      CellKeeps(settings, db, r.0, c, CellOf(r.0, c));
    } else {
      MarkManualCell(db, c, snap, r.0);
      ManualCellOk(settings, c, CellOf(db, c), snap);
      CellKeeps(settings, db, r.0, c, CellOf(r.0, c));
    }
  }
}
