/** The invariant of the committed database, kept by every transaction of the services whatever
    other workers do (assumption level FREE). */
module Ledger {
  import opened Domain
  import opened Tables
  import opened History
  import opened CaseStore
  import opened Outbox
  import opened Refunds
  import opened Returns
  import opened Cells

  predicate EventOk(cell: Cell, event: Event) {
    && event.topic == RefundDispatch
    && cell.attempt.Some?
    && event.org == cell.attempt.value.org
  }

  ghost predicate EventsOk(db: Db) {
    forall e {:trigger db.events[e]} :: e in db.events ==> EventOk(CellOf(db, db.events[e].caseId), db.events[e])
  }

  predicate IsPending(cell: Cell) {
    cell.row.Some? && cell.row.value.status == RefundPending
  }

  /** No stranded refund: a pending one still has an event to be worked on. */
  ghost predicate NoneStranded(db: Db) {
    forall c {:trigger CellOf(db, c)} :: IsPending(CellOf(db, c)) ==> HasLiveEvent(db.events, c)
  }

  /** An approval row fits the case it belongs to. */
  predicate ApprovalRowOk(cell: Cell, a: Approval) {
    && cell.row.Some?
    && cell.row.value.org == a.org
    && a.decision == Approved
    && (a.kind == Eligibility ==> cell.row.value.status != Requested)
    && (a.kind == HighValueSecond ==> cell.row.value.approved.Some?)
  }

  ghost predicate ApprovalRowsOk(db: Db) {
    forall i {:trigger db.approvals[i]} :: 0 <= i < |db.approvals| ==>
      ApprovalRowOk(CellOf(db, db.approvals[i].caseId), db.approvals[i])
  }

  ghost predicate CellsOk(settings: Settings, db: Db) {
    forall c {:trigger CellOf(db, c)} :: CellOk(settings, c, CellOf(db, c))
  }

  ghost predicate DbInv(settings: Settings, db: Db) {
    CellsOk(settings, db) && EventsOk(db) && NoneStranded(db) && ApprovalRowsOk(db)
  }

  ghost predicate Evolves(db: Db, db': Db) {
    forall c {:trigger CellOf(db', c)} :: CellEvolves(CellOf(db, c), CellOf(db', c))
  }

  /** Events are neither deleted nor moved to another case. */
  ghost predicate EventsGrow(events: map<EventId, Event>, events': map<EventId, Event>) {
    forall e {:trigger e in events'} :: e in events ==>
      e in events' && events'[e].caseId == events[e].caseId
  }

  /** A transaction keeps the invariant, takes nothing back and touches one case. */
  ghost predicate Keeps(settings: Settings, db: Db, db': Db, c: CaseId) {
    && DbInv(settings, db')
    && Evolves(db, db')
    && OnlyCell(db, db', c)
    && EventsGrow(db.events, db'.events)
  }

  lemma EmptyInv(settings: Settings)
    ensures DbInv(settings, EMPTY_DB)
  {
  }

  /* Raising the argument from one cell to the database. */

  lemma LiftCell(settings: Settings, db: Db, db': Db, c: CaseId)
    requires DbInv(settings, db)
    requires OnlyCell(db, db', c)
    requires CellOk(settings, c, CellOf(db', c)) && CellEvolves(CellOf(db, c), CellOf(db', c))
    ensures CellsOk(settings, db') && Evolves(db, db')
    ensures db'.approvals == db.approvals ==> ApprovalRowsOk(db')
    ensures db'.events == db.events ==> EventsOk(db')
  {
    forall d ensures CellOk(settings, d, CellOf(db', d)) && CellEvolves(CellOf(db, d), CellOf(db', d)) {
      assert d != c ==> CellOf(db', d) == CellOf(db, d);
    }
  }

  /** The events of the other cases, and those of `c` but `e`, are as they were. */
  lemma LiftEvents(settings: Settings, db: Db, db': Db, c: CaseId, e: EventId)
    requires DbInv(settings, db)
    requires OnlyCell(db, db', c) && CellEvolves(CellOf(db, c), CellOf(db', c))
    requires e in db.events ==> db.events[e].caseId == c
    requires e in db'.events && db'.events[e].caseId == c && EventOk(CellOf(db', c), db'.events[e])
    requires forall d :: d != e ==> (d in db'.events <==> d in db.events)
    requires forall d :: d != e && d in db.events ==> db'.events[d] == db.events[d]
    requires IsPending(CellOf(db', c)) ==> LiveStatus(db'.events[e].status)
    ensures EventsOk(db') && NoneStranded(db') && EventsGrow(db.events, db'.events)
  {
    LiveEventsStay(db, db', c, e);
    EventsStayOk(db, db', c, e);
  }

  lemma EventsStayOk(db: Db, db': Db, c: CaseId, e: EventId)
    requires EventsOk(db) && OnlyCell(db, db', c) && CellEvolves(CellOf(db, c), CellOf(db', c))
    requires e in db'.events && db'.events[e].caseId == c && EventOk(CellOf(db', c), db'.events[e])
    requires forall d :: d != e ==> (d in db'.events <==> d in db.events)
    requires forall d :: d != e && d in db.events ==> db'.events[d] == db.events[d]
    ensures EventsOk(db')
  {
    forall d | d in db'.events ensures EventOk(CellOf(db', db'.events[d].caseId), db'.events[d]) {
      if d != e && db'.events[d].caseId != c {
        assert CellOf(db', db'.events[d].caseId) == CellOf(db, db'.events[d].caseId);
      }
    }
  }

  lemma LiveEventsStay(db: Db, db': Db, c: CaseId, e: EventId)
    requires NoneStranded(db) && OnlyCell(db, db', c)
    requires e in db.events ==> db.events[e].caseId == c
    requires e in db'.events && db'.events[e].caseId == c
    requires forall d :: d != e ==> (d in db'.events <==> d in db.events)
    requires forall d :: d != e && d in db.events ==> db'.events[d] == db.events[d]
    requires IsPending(CellOf(db', c)) ==> LiveStatus(db'.events[e].status)
    ensures NoneStranded(db')
  {
    forall d | IsPending(CellOf(db', d)) ensures HasLiveEvent(db'.events, d) {
      if d == c {
        assert LiveEvent(db'.events, e, c);
      } else {
        assert CellOf(db', d) == CellOf(db, d);
        var x :| LiveEvent(db.events, x, d);
        assert LiveEvent(db'.events, x, d);
      }
    }
  }

  /** The events stay, and case `c` is not pending unless it was. */
  lemma LiftQuiet(settings: Settings, db: Db, db': Db, c: CaseId)
    requires DbInv(settings, db)
    requires OnlyCell(db, db', c) && db'.events == db.events
    requires IsPending(CellOf(db', c)) ==> IsPending(CellOf(db, c))
    ensures NoneStranded(db') && EventsGrow(db.events, db'.events)
  {
    forall d | IsPending(CellOf(db', d)) ensures HasLiveEvent(db'.events, d) {
      assert IsPending(CellOf(db, d));
    }
  }

  lemma LogMoved(cell: Cell, row: CaseRow, entry: AuditRow)
    requires cell.row.Some? && LogOk(cell)
    requires entry.before == cell.row && entry.after == Some(row)
    requires entry.action != FirstApprovalRecorded && LegalWrite(cell.row.value, row, entry.action)
    ensures LogOk(cell.(row := Some(row), log := cell.log + [entry]))
  {
    ReplayAppend(cell.log, entry);
  }

  /* The commands. */

  /** A move that neither starts nor ends a refund attempt's life, attempt and events untouched. */
  lemma PlainMoveKeeps(settings: Settings, db: Db, context: Context, c: CaseId, expected: int,
                       target: ReturnStatus, action: Action, db': Db)
    requires DbInv(settings, db) && c in db.cases
    requires CasTransition(db, c, db.cases[c], target, Some(context), false, expected, None, action) == Ok(db')
    requires target in {Authorized, Received, Inspected, Rejected, Reconciled, Closed}
    requires action !in {FirstApprovalRecorded, RefundApprovedByFinance, RetryAuthorized}
    ensures Keeps(settings, db, db', c)
    ensures db'.approvals == db.approvals && db'.events == db.events && db'.attempts == db.attempts
  {
    CellsCaseMoved(db, c, db.cases[c], target, Some(context), None, action);
    assert CellOk(settings, c, CellOf(db, c));
    PlainMovedCellOk(settings, c, CellOf(db, c), context, target, action);
    LiftCell(settings, db, db', c);
    LiftQuiet(settings, db, db', c);
  }

  lemma PlainMovedCellOk(settings: Settings, c: CaseId, cell: Cell, context: Context, target: ReturnStatus,
                         action: Action)
    requires CellOk(settings, c, cell) && cell.row.Some? && target in Transitions(cell.row.value.status)
    requires target in {Authorized, Received, Inspected, Rejected, Reconciled, Closed}
    requires action !in {FirstApprovalRecorded, RefundApprovedByFinance, RetryAuthorized}
    ensures var cell' := MovedCell(cell, Some(context), target, None, action, c);
            CellOk(settings, c, cell') && CellEvolves(cell, cell')
  {
    var snap := cell.row.value;
    var row := MovedRow(snap, snap, target, None);
    LogMoved(cell, row, AuditRow(snap.org, ActorOf(Some(context)), action, CaseResource(c), Some(snap), Some(row)));
  }

  lemma EligibilityKeeps(settings: Settings, db: Db, context: Context, c: CaseId, db': Db)
    requires DbInv(settings, db) && Visible(db, context, c)
    requires db.cases[c].status != Requested
    requires InsertApproval(db, EligibilityApproval(context, c)) == Ok(db')
    ensures Keeps(settings, db, db', c) && forall d :: CellOf(db', d) == CellOf(db, d)
    ensures db'.events == db.events && db'.attempts == db.attempts && db'.cases == db.cases
  {
    CellsApproved(db, EligibilityApproval(context, c));
    LiftCell(settings, db, db', c);
    LiftQuiet(settings, db, db', c);
    ApprovalRowAppended(settings, db, EligibilityApproval(context, c), db');
  }

  /** The cell after a guarded transition decided on the current row. */
  function MovedCell(cell: Cell, context: Option<Context>, target: ReturnStatus, approved: Option<int>,
                     action: Action, c: CaseId): Cell
    requires cell.row.Some?
  {
    var snap := cell.row.value;
    var row := MovedRow(snap, snap, target, approved);
    cell.(row := Some(row),
          log := cell.log + [AuditRow(snap.org, ActorOf(context), action, CaseResource(c), Some(snap), Some(row))])
  }

  lemma MovedCellLogOk(cell: Cell, context: Option<Context>, target: ReturnStatus, approved: Option<int>,
                       action: Action, c: CaseId)
    requires cell.row.Some? && LogOk(cell)
    requires action != FirstApprovalRecorded
    requires LegalWrite(cell.row.value, MovedRow(cell.row.value, cell.row.value, target, approved), action)
    ensures LogOk(MovedCell(cell, context, target, approved, action, c))
  {
    var snap := cell.row.value;
    var row := MovedRow(snap, snap, target, approved);
    LogMoved(cell, row, AuditRow(snap.org, ActorOf(context), action, CaseResource(c), Some(snap), Some(row)));
  }

  lemma RefundApprovalAppended(settings: Settings, db: Db, context: Context, c: CaseId, kind: ApprovalKind,
                               amount: int, db': Db)
    requires DbInv(settings, db) && Visible(db, context, c)
    requires kind in {RefundApproval, HighValueSecond}
    requires InsertApproval(db, ApprovalBy(context, c, kind, amount)) == Ok(db')
    ensures OnlyCell(db, db', c)
    ensures CellOf(db', c) == CellOf(db, c).(
              approvals := RefundApprovals(db.approvals, c) + [ApprovalBy(context, c, kind, amount)])
    ensures db'.events == db.events && db'.attempts == db.attempts && db'.cases == db.cases
  {
    CellsApproved(db, ApprovalBy(context, c, kind, amount));
  }

  lemma ApprovalRowAppended(settings: Settings, db: Db, a: Approval, db': Db)
    requires DbInv(settings, db) && Evolves(db, db')
    requires db'.approvals == db.approvals + [a]
    requires ApprovalRowOk(CellOf(db', a.caseId), a)
    ensures ApprovalRowsOk(db')
  {
    forall i | 0 <= i < |db'.approvals|
      ensures ApprovalRowOk(CellOf(db', db'.approvals[i].caseId), db'.approvals[i])
    {
      var d := db'.approvals[i].caseId;
      assert CellEvolves(CellOf(db, d), CellOf(db', d));
      if i < |db.approvals| {
        assert db'.approvals[i] == db.approvals[i];
      }
    }
  }

  lemma FirstApprovalKeeps(settings: Settings, db: Db, context: Context, c: CaseId, amount: int, db': Db)
    requires DbInv(settings, db) && Visible(db, context, c)
    requires db.cases[c].status == Inspected && AmountInRange(db.cases[c], amount)
    requires amount >= settings.highValueThreshold && RefundApprovals(db.approvals, c) == []
    requires RecordFirstApproval(db, context, c, db.cases[c], amount) == Ok(db')
    ensures Keeps(settings, db, db', c)
  {
    var cell, a := CellOf(db, c), ApprovalBy(context, c, RefundApproval, amount);
    assert CellOk(settings, c, cell);
    FirstApprovalShape(db, context, c, amount, db');
    FirstApprovedCellOk(settings, c, cell, a, FirstApprovalEntry(context, c));
    LiftCell(settings, db, db', c);
    LiftQuiet(settings, db, db', c);
    ApprovalRowAppended(settings, db, a, db');
  }

  function FirstApprovalEntry(context: Context, c: CaseId): AuditRow {
    AuditRow(context.org, Some(context.user), FirstApprovalRecorded, CaseResource(c), None, None)
  }

  function FirstApprovedCell(cell: Cell, a: Approval, entry: AuditRow): Cell
    requires cell.row.Some?
  {
    cell.(row := Some(cell.row.value.(version := cell.row.value.version + 1)),
          approvals := cell.approvals + [a],
          log := cell.log + [entry])
  }

  lemma FirstApprovalShape(db: Db, context: Context, c: CaseId, amount: int, db': Db)
    requires c in db.cases && RecordFirstApproval(db, context, c, db.cases[c], amount) == Ok(db')
    ensures var a := ApprovalBy(context, c, RefundApproval, amount);
            && OnlyCell(db, db', c)
            && CellOf(db', c) == FirstApprovedCell(CellOf(db, c), a, FirstApprovalEntry(context, c))
            && db'.approvals == db.approvals + [a] && db'.events == db.events
  {
    FirstApprovalTables(db, context, c, amount, db');
    FirstApprovalCells(db, c, ApprovalBy(context, c, RefundApproval, amount), FirstApprovalEntry(context, c));
  }

  /** The case with its version raised. */
  function VersionRaised(db: Db, c: CaseId): Db
    requires c in db.cases
  {
    db.(cases := db.cases[c := db.cases[c].(version := db.cases[c].version + 1)])
  }

  lemma FirstApprovalTables(db: Db, context: Context, c: CaseId, amount: int, db': Db)
    requires c in db.cases && RecordFirstApproval(db, context, c, db.cases[c], amount) == Ok(db')
    ensures db' == Audited(VersionRaised(db, c).(
                             approvals := db.approvals + [ApprovalBy(context, c, RefundApproval, amount)]),
                           FirstApprovalEntry(context, c))
  {
  }

  lemma FirstApprovalCells(db: Db, c: CaseId, a: Approval, entry: AuditRow)
    requires c in db.cases && IsRefundApproval(a, c) && entry.resource == CaseResource(c)
    ensures var db' := Audited(VersionRaised(db, c).(approvals := db.approvals + [a]), entry);
            OnlyCell(db, db', c) && CellOf(db', c) == FirstApprovedCell(CellOf(db, c), a, entry)
  {
    var db1 := VersionRaised(db, c);
    var db2 := db1.(approvals := db1.approvals + [a]);
    CellRaised(db, c);
    CellsApproved(db1, a);
    CellLogged(db2, c, entry);
    OnlyCellTransitive(db, db1, db2, c);
    OnlyCellTransitive(db, db2, Audited(db2, entry), c);
  }

  lemma CellRaised(db: Db, c: CaseId)
    requires c in db.cases
    ensures OnlyCell(db, VersionRaised(db, c), c)
    ensures CellOf(VersionRaised(db, c), c)
         == CellOf(db, c).(row := Some(db.cases[c].(version := db.cases[c].version + 1)))
  {
  }

  lemma CellLogged(db: Db, c: CaseId, entry: AuditRow)
    requires entry.resource == CaseResource(c)
    ensures OnlyCell(db, Audited(db, entry), c)
    ensures CellOf(Audited(db, entry), c) == CellOf(db, c).(log := CellOf(db, c).log + [entry])
  {
    CellsAudited(db, entry);
  }

  lemma FirstApprovedCellOk(settings: Settings, c: CaseId, cell: Cell, a: Approval, entry: AuditRow)
    requires CellOk(settings, c, cell) && cell.row.Some? && cell.row.value.status == Inspected && cell.approvals == []
    requires a.amount.Some? && AmountInRange(cell.row.value, a.amount.value)
    requires a.amount.value >= settings.highValueThreshold
    requires entry.action == FirstApprovalRecorded && entry.before.None? && entry.after.None?
    ensures var cell' := FirstApprovedCell(cell, a, entry); CellOk(settings, c, cell') && CellEvolves(cell, cell')
  {
    ReplayAppend(cell.log, entry);
  }

  /** The two transitions, the attempt and the event of an approval that completes. */
  lemma PlannedCell(db: Db, context: Context, c: CaseId, expected: int, amount: int, now: Time, e: EventId, db': Db)
    requires c in db.cases && c !in db.attempts && db.cases[c].status == Inspected
    requires ApproveAndPlan(db, context, c, db.cases[c], expected, amount, now, e) == Ok(db')
    ensures OnlyCell(db, db', c)
    ensures var approved := MovedCell(CellOf(db, c), Some(context), RefundApproved, Some(amount),
                                      RefundApprovedByFinance, c);
            CellOf(db', c) == MovedCell(approved, None, RefundPending, None, RefundPlanned, c).(
                                attempt := Some(NewAttempt(c, db.cases[c], amount)))
    ensures e !in db.events
    ensures db'.events == db.events[e := NewEvent(db.cases[c].org, RefundDispatch, c, now)]
    ensures db'.approvals == db.approvals
  {
    PlannedTables(db, context, c, expected, amount, now, e, db');
    PlannedCells(db, context, c, amount, db');
  }

  /** The tables after an approval that completes, but for the event. */
  function PlannedDb(db: Db, context: Context, c: CaseId, amount: int): Db
    requires c in db.cases
  {
    var db1 := CaseMoved(db, c, db.cases[c], RefundApproved, Some(context), Some(amount), RefundApprovedByFinance);
    var row := db1.cases[c];
    var db2 := db1.(attempts := db1.attempts[c := NewAttempt(c, row, amount)]);
    CaseMoved(db2, c, row, RefundPending, None, None, RefundPlanned)
  }

  lemma PlannedTables(db: Db, context: Context, c: CaseId, expected: int, amount: int, now: Time, e: EventId, db': Db)
    requires c in db.cases && c !in db.attempts && db.cases[c].status == Inspected
    requires ApproveAndPlan(db, context, c, db.cases[c], expected, amount, now, e) == Ok(db')
    ensures e !in db.events
    ensures db' == PlannedDb(db, context, c, amount).(
                     events := db.events[e := NewEvent(db.cases[c].org, RefundDispatch, c, now)])
  {
  }

  lemma PlannedCells(db: Db, context: Context, c: CaseId, amount: int, db': Db)
    requires c in db.cases && db' == PlannedDb(db, context, c, amount).(events := db'.events)
    ensures OnlyCell(db, db', c) && db'.approvals == db.approvals
    ensures var approved := MovedCell(CellOf(db, c), Some(context), RefundApproved, Some(amount),
                                      RefundApprovedByFinance, c);
            CellOf(db', c) == MovedCell(approved, None, RefundPending, None, RefundPlanned, c).(
                                attempt := Some(NewAttempt(c, db.cases[c], amount)))
  {
    var snap := db.cases[c];
    CellsCaseMoved(db, c, snap, RefundApproved, Some(context), Some(amount), RefundApprovedByFinance);
    var db1 := CaseMoved(db, c, snap, RefundApproved, Some(context), Some(amount), RefundApprovedByFinance);
    var row := db1.cases[c];
    var db2 := db1.(attempts := db1.attempts[c := NewAttempt(c, row, amount)]);
    CellsCaseMoved(db2, c, row, RefundPending, None, None, RefundPlanned);
    forall d | d != c ensures CellOf(db', d) == CellOf(db, d) {
      assert CellOf(db', d) == CellOf(PlannedDb(db, context, c, amount), d) == CellOf(db2, d) == CellOf(db1, d);
    }
  }

  /** The cell of a case whose refund has just been approved and planned. */
  lemma PlannedCellOk(settings: Settings, c: CaseId, cell: Cell, approvals: seq<Approval>, context: Context,
                      amount: int)
    requires CellOk(settings, c, cell) && cell.row.Some? && cell.row.value.status == Inspected
    requires AmountInRange(cell.row.value, amount) && FourEyes(settings, approvals, amount)
    ensures var cell1 := cell.(approvals := approvals);
            var approved := MovedCell(cell1, Some(context), RefundApproved, Some(amount), RefundApprovedByFinance, c);
            var planned := MovedCell(approved, None, RefundPending, None, RefundPlanned, c).(
                             attempt := Some(NewAttempt(c, cell.row.value, amount)));
            && CellOk(settings, c, planned) && CellEvolves(cell, planned)
            && planned.attempt.value.org == cell.row.value.org
  {
    var cell1 := cell.(approvals := approvals);
    assert LogOk(cell1);
    MovedCellLogOk(cell1, Some(context), RefundApproved, Some(amount), RefundApprovedByFinance, c);
    var approved := MovedCell(cell1, Some(context), RefundApproved, Some(amount), RefundApprovedByFinance, c);
    MovedCellLogOk(approved, None, RefundPending, None, RefundPlanned, c);
  }

  lemma RetriedCellOk(settings: Settings, c: CaseId, cell: Cell)
    requires CellOk(settings, c, cell) && cell.row.Some? && cell.row.value.status == NeedsReconciliation
    ensures var planned := cell.(attempt := Some(cell.attempt.value.(status := Planned)));
            var retried := MovedCell(planned, None, RefundPending, None, RetryAuthorized, c);
            CellOk(settings, c, retried) && CellEvolves(cell, retried)
  {
    var planned := cell.(attempt := Some(cell.attempt.value.(status := Planned)));
    MovedCellLogOk(planned, None, RefundPending, None, RetryAuthorized, c);
  }

  lemma CompletedApprovalKeeps(settings: Settings, db: Db, context: Context, c: CaseId, kind: ApprovalKind,
                               expected: int, amount: int, now: Time, e: EventId, db1: Db, db': Db)
    requires DbInv(settings, db) && Visible(db, context, c)
    requires db.cases[c].status == Inspected && AmountInRange(db.cases[c], amount)
    requires kind in {RefundApproval, HighValueSecond}
    requires InsertApproval(db, ApprovalBy(context, c, kind, amount)) == Ok(db1)
    requires FourEyes(settings, RefundApprovals(db.approvals, c) + [ApprovalBy(context, c, kind, amount)], amount)
    requires ApproveAndPlan(db1, context, c, db.cases[c], expected, amount, now, e) == Ok(db')
    ensures Keeps(settings, db, db', c)
  {
    CompletedApprovalCell(settings, db, context, c, kind, expected, amount, now, e, db1, db');
    LiftCell(settings, db, db', c);
    LiftEvents(settings, db, db', c, e);
    ApprovalRowAppended(settings, db, ApprovalBy(context, c, kind, amount), db');
  }

  /** What the approval that completes the decision makes of its case. */
  lemma CompletedApprovalCell(settings: Settings, db: Db, context: Context, c: CaseId, kind: ApprovalKind,
                              expected: int, amount: int, now: Time, e: EventId, db1: Db, db': Db)
    requires DbInv(settings, db) && Visible(db, context, c)
    requires db.cases[c].status == Inspected && AmountInRange(db.cases[c], amount)
    requires kind in {RefundApproval, HighValueSecond}
    requires InsertApproval(db, ApprovalBy(context, c, kind, amount)) == Ok(db1)
    requires FourEyes(settings, RefundApprovals(db.approvals, c) + [ApprovalBy(context, c, kind, amount)], amount)
    requires ApproveAndPlan(db1, context, c, db.cases[c], expected, amount, now, e) == Ok(db')
    ensures OnlyCell(db, db', c) && CellOk(settings, c, CellOf(db', c)) && CellEvolves(CellOf(db, c), CellOf(db', c))
    ensures db'.approvals == db.approvals + [ApprovalBy(context, c, kind, amount)]
    ensures e !in db.events && db'.events == db.events[e := NewEvent(db.cases[c].org, RefundDispatch, c, now)]
    ensures EventOk(CellOf(db', c), db'.events[e])
    ensures ApprovalRowOk(CellOf(db', c), ApprovalBy(context, c, kind, amount))
  {
    var cell := CellOf(db, c);
    assert CellOk(settings, c, cell);
    RefundApprovalAppended(settings, db, context, c, kind, amount, db1);
    PlannedCell(db1, context, c, expected, amount, now, e, db');
    PlannedCellOk(settings, c, cell, CellOf(db1, c).approvals, context, amount);
    OnlyCellTransitive(db, db1, db', c);
  }

  lemma OnlyCellTransitive(db: Db, db1: Db, db2: Db, c: CaseId)
    requires OnlyCell(db, db1, c) && OnlyCell(db1, db2, c)
    ensures OnlyCell(db, db2, c)
  {
    forall d | d != c ensures CellOf(db2, d) == CellOf(db, d) {
      assert CellOf(db2, d) == CellOf(db1, d);
    }
  }

  lemma ApproveKeeps(settings: Settings, db: Db, context: Context, c: CaseId, expected: int, amount: int,
                     now: Time, e: EventId, r: (Db, bool))
    requires DbInv(settings, db) && Visible(db, context, c)
    requires ApproveRefund(settings, db, context, c, expected, amount, db.cases[c],
                           RefundApprovals(db.approvals, c), now, e) == Ok(r)
    ensures Keeps(settings, db, r.0, c)
  {
    var snap, approvals := db.cases[c], RefundApprovals(db.approvals, c);
    assert CellOk(settings, c, CellOf(db, c));
    if approvals == [] && amount >= settings.highValueThreshold {
      FirstApprovalKeeps(settings, db, context, c, amount, r.0);
    } else {
      var kind := if approvals == [] then RefundApproval else HighValueSecond;
      var db1 := InsertApproval(db, ApprovalBy(context, c, kind, amount)).value;
      CompletedApprovalKeeps(settings, db, context, c, kind, expected, amount, now, e, db1, r.0);
    }
  }

  lemma RetryShape(db: Db, context: Context, c: CaseId, expected: int, seen: Option<Attempt>, now: Time, e: EventId,
                   db': Db)
    requires c in db.cases && RetryFailedRefund(db, context, c, expected, db.cases[c], seen, now, e) == Ok(db')
    ensures c in db.attempts && seen.Some? && seen.value.status == Failed && db.cases[c].status == NeedsReconciliation
    ensures OnlyCell(db, db', c) && db'.approvals == db.approvals
    ensures var planned := CellOf(db, c).(attempt := Some(db.attempts[c].(status := Planned)));
            CellOf(db', c) == MovedCell(planned, None, RefundPending, None, RetryAuthorized, c)
    ensures e !in db.events && db'.events == db.events[e := NewEvent(context.org, RefundDispatch, c, now)]
  {
    var snap := db.cases[c];
    var db1 := db.(attempts := db.attempts[c := db.attempts[c].(status := Planned)]);
    CellsCaseMoved(db1, c, snap, RefundPending, None, None, RetryAuthorized);
    var db2 := CaseMoved(db1, c, snap, RefundPending, None, None, RetryAuthorized);
    assert db' == db2.(events := db'.events);
    forall d | d != c ensures CellOf(db', d) == CellOf(db, d) {
      assert CellOf(db', d) == CellOf(db2, d) == CellOf(db1, d);
    }
  }

  lemma RetryKeeps(settings: Settings, db: Db, context: Context, c: CaseId, expected: int, seen: Option<Attempt>,
                   now: Time, e: EventId, db': Db)
    requires DbInv(settings, db) && Visible(db, context, c)
    requires RetryFailedRefund(db, context, c, expected, db.cases[c], seen, now, e) == Ok(db')
    ensures Keeps(settings, db, db', c)
  {
    RetryShape(db, context, c, expected, seen, now, e, db');
    assert CellOk(settings, c, CellOf(db, c));
    RetriedLift(settings, db, c, e, NewEvent(context.org, RefundDispatch, c, now), db');
  }

  lemma RetriedLift(settings: Settings, db: Db, c: CaseId, e: EventId, event: Event, db': Db)
    requires DbInv(settings, db) && c in db.cases && c in db.attempts
    requires db.cases[c].status == NeedsReconciliation
    requires OnlyCell(db, db', c) && db'.approvals == db.approvals
    requires var planned := CellOf(db, c).(attempt := Some(db.attempts[c].(status := Planned)));
             CellOf(db', c) == MovedCell(planned, None, RefundPending, None, RetryAuthorized, c)
    requires e !in db.events && db'.events == db.events[e := event]
    requires event.caseId == c && event.topic == RefundDispatch && event.org == db.attempts[c].org
    requires LiveStatus(event.status)
    ensures Keeps(settings, db, db', c)
  {
    assert CellOk(settings, c, CellOf(db, c));
    RetriedCellOk(settings, c, CellOf(db, c));
    LiftCell(settings, db, db', c);
    LiftEvents(settings, db, db', c, e);
  }

  lemma MoveQuiet(db: Db, context: Context, cmd: Command, target: ReturnStatus, action: Action, db': Db)
    requires cmd.c in db.cases && Move(db, context, cmd, db.cases[cmd.c], target, action) == Ok(db')
    ensures db'.events == db.events && db'.attempts == db.attempts
    ensures cmd.c in db'.cases && db'.cases[cmd.c].status == target
  {
  }

  lemma AuthorizeQuiet(db: Db, context: Context, c: CaseId, expected: int, db': Db)
    requires c in db.cases && AuthorizeCase(db, context, c, expected, db.cases[c]) == Ok(db')
    ensures db'.events == db.events && db'.attempts == db.attempts
    ensures c in db'.cases && db'.cases[c].status == Authorized
  {
  }

  /** Of the commands that are no approval only a retry touches an attempt: it is planned again. */
  lemma PlainAttempt(db: Db, context: Context, cmd: Command, seen: Option<Attempt>, now: Time, e: EventId, db': Db)
    requires !cmd.op.ApproveRefundOf? && cmd.c in db.cases
    requires CommitPlain(db, context, cmd, db.cases[cmd.c], seen, now, e) == Ok(db')
    ensures db'.attempts == db.attempts
         || (cmd.c in db.attempts
             && db'.attempts == db.attempts[cmd.c := db.attempts[cmd.c].(status := Planned)])
  {
    match cmd.op
    case Authorize => AuthorizeQuiet(db, context, cmd.c, cmd.expected, db');
    case Receive => MoveQuiet(db, context, cmd, Received, ReturnReceived, db');
    case Inspect => MoveQuiet(db, context, cmd, Inspected, ReturnInspected, db');
    case Reject => MoveQuiet(db, context, cmd, Rejected, ReturnRejected, db');
    case RetryFailed => RetriedAttempt(db, context, cmd.c, cmd.expected, seen, now, e, db');
    case MarkReconciled => MoveQuiet(db, context, cmd, Reconciled, ReturnReconciled, db');
    case Close => MoveQuiet(db, context, cmd, Closed, ReturnClosed, db');
  }

  lemma RetriedAttempt(db: Db, context: Context, c: CaseId, expected: int, seen: Option<Attempt>, now: Time,
                       e: EventId, db': Db)
    requires c in db.cases && RetryFailedRefund(db, context, c, expected, db.cases[c], seen, now, e) == Ok(db')
    ensures c in db.attempts && db'.attempts == db.attempts[c := db.attempts[c].(status := Planned)]
  {
  }

  /** An approval plans a new attempt or leaves the attempts alone. */
  lemma ApprovalAttempt(settings: Settings, db: Db, context: Context, cmd: Command, now: Time, e: EventId,
                        r: (Db, bool))
    requires cmd.op.ApproveRefundOf? && cmd.c in db.cases && cmd.c !in db.attempts
    requires ApproveRefund(settings, db, context, cmd.c, cmd.expected, cmd.op.amount, db.cases[cmd.c],
                           RefundApprovals(db.approvals, cmd.c), now, e) == Ok(r)
    ensures r.0.attempts == db.attempts
         || (cmd.c in r.0.attempts && r.0.attempts[cmd.c].status == Planned && r.0.attempts[cmd.c].dispatchCount == 0
             && r.0.attempts[cmd.c].providerRef.None?)
  {
    var amount := cmd.op.amount;
    if RefundApprovals(db.approvals, cmd.c) != [] || amount < settings.highValueThreshold {
      var kind := if RefundApprovals(db.approvals, cmd.c) == [] then RefundApproval else HighValueSecond;
      var db1 := InsertApproval(db, ApprovalBy(context, cmd.c, kind, amount)).value;
      PlannedCell(db1, context, cmd.c, cmd.expected, amount, now, e, r.0);
      assert CellOf(r.0, cmd.c).attempt.Some?;
    }
  }

  lemma PlainCommandKeeps(settings: Settings, db: Db, context: Context, cmd: Command, seen: Option<Attempt>, now: Time,
                          e: EventId, db': Db)
    requires DbInv(settings, db) && Visible(db, context, cmd.c)
    requires !cmd.op.ApproveRefundOf? && CommitPlain(db, context, cmd, db.cases[cmd.c], seen, now, e) == Ok(db')
    ensures Keeps(settings, db, db', cmd.c)
  {
    var c, snap := cmd.c, db.cases[cmd.c];
    match cmd.op
    case Authorize =>
      var db1 := CasTransition(db, c, snap, Authorized, Some(context), false, cmd.expected, None,
                               ReturnAuthorized).value;
      PlainMoveKeeps(settings, db, context, c, cmd.expected, Authorized, ReturnAuthorized, db1);
      EligibilityKeeps(settings, db1, context, c, db');
      OnlyCellTransitive(db, db1, db', c);
      LiftCell(settings, db, db', c);
    case Receive => PlainMoveKeeps(settings, db, context, c, cmd.expected, Received, ReturnReceived, db');
    case Inspect => PlainMoveKeeps(settings, db, context, c, cmd.expected, Inspected, ReturnInspected, db');
    case Reject => PlainMoveKeeps(settings, db, context, c, cmd.expected, Rejected, ReturnRejected, db');
    case RetryFailed => RetryKeeps(settings, db, context, c, cmd.expected, seen, now, e, db');
    case MarkReconciled => PlainMoveKeeps(settings, db, context, c, cmd.expected, Reconciled, ReturnReconciled, db');
    case Close => PlainMoveKeeps(settings, db, context, c, cmd.expected, Closed, ReturnClosed, db');
  }

  /** Every human command, run as one transaction, keeps the invariant. */
  lemma ExecKeeps(settings: Settings, db: Db, context: Context, cmd: Command, seen: Option<Attempt>, now: Time,
                  e: EventId, r: (Db, bool))
    requires DbInv(settings, db)
    requires ExecOn(settings, db, context, cmd, seen, now, e) == Ok(r)
    ensures Keeps(settings, db, r.0, cmd.c)
  {
    if cmd.op.ApproveRefundOf? {
      ApproveKeeps(settings, db, context, cmd.c, cmd.expected, cmd.op.amount, now, e, r);
    } else {
      PlainCommandKeeps(settings, db, context, cmd, seen, now, e, r.0);
    }
  }

  lemma CreateKeeps(settings: Settings, db: Db, context: Context, c: CaseId, requested: int, currency: string, db': Db)
    requires DbInv(settings, db)
    requires CreateCase(db, context, c, requested, currency) == Ok(db')
    ensures Keeps(settings, db, db', c)
  {
    CreatedShape(db, context, c, requested, currency, db');
    assert CellOk(settings, c, CellOf(db, c));
    CreatedCellOk(settings, c, NewCase(context, requested, currency), CellOf(db', c));
    LiftCell(settings, db, db', c);
    LiftQuiet(settings, db, db', c);
  }

  lemma CreatedShape(db: Db, context: Context, c: CaseId, requested: int, currency: string, db': Db)
    requires CreateCase(db, context, c, requested, currency) == Ok(db')
    ensures requested > 0 && c !in db.cases && OnlyCell(db, db', c)
    ensures db'.approvals == db.approvals && db'.events == db.events
    ensures var row := NewCase(context, requested, currency);
            CellOf(db', c) == CellOf(db, c).(
              row := Some(row),
              log := CellOf(db, c).log
                     + [AuditRow(context.org, Some(context.user), ReturnCreated, CaseResource(c), None, Some(row))])
  {
    var row := NewCase(context, requested, currency);
    CellsAudited(db.(cases := db.cases[c := row]),
                 AuditRow(context.org, Some(context.user), ReturnCreated, CaseResource(c), None, Some(row)));
  }

  lemma CreatedCellOk(settings: Settings, c: CaseId, row: CaseRow, cell: Cell)
    requires row.requested > 0 && row.status == Requested && row.version == 1 && row.approved.None?
    requires cell.row == Some(row) && cell.attempt.None? && cell.approvals == []
    requires |cell.log| == 1 && OpensLog(cell.log[0]) && cell.log[0].after == Some(row)
    ensures CellOk(settings, c, cell)
  {
  }
}
