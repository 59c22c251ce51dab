/** Tenants do not interfere: a command issued in one organization depends only on the rows of that
    organization and changes no row of another. */
module Tenancy {
  import opened Domain
  import opened Tables
  import opened CaseStore
  import opened Outbox
  import opened Refunds
  import opened Returns
  import opened Payments
  import opened Provider
  import opened Confirmation
  import opened Cells
  import opened Ledger

  function ApprovalsOf(approvals: seq<Approval>, org: Uuid): seq<Approval> {
    if approvals == [] then []
    else
      var last := approvals[|approvals| - 1];
      ApprovalsOf(approvals[..|approvals| - 1], org) + if last.org == org then [last] else []
  }

  function AuditOf(audit: seq<AuditRow>, org: Uuid): seq<AuditRow> {
    if audit == [] then []
    else
      var last := audit[|audit| - 1];
      AuditOf(audit[..|audit| - 1], org) + if last.org == org then [last] else []
  }

  /** The rows of one organization. Webhook receipts belong to none. */
  function RowsOf(db: Db, org: Uuid): Db {
    Db(map c | c in db.cases && db.cases[c].org == org :: db.cases[c],
       ApprovalsOf(db.approvals, org),
       map c | c in db.attempts && db.attempts[c].org == org :: db.attempts[c],
       map e | e in db.events && db.events[e].org == org :: db.events[e],
       map[],
       AuditOf(db.audit, org))
  }

  /** Case `c` is of `org`, and so are its approvals and its attempt. */
  ghost predicate Owned(db: Db, c: CaseId, org: Uuid) {
    && c in db.cases && db.cases[c].org == org
    && (forall a :: a in db.approvals && a.caseId == c ==> a.org == org)
    && (c in db.attempts ==> db.attempts[c].org == org)
  }

  /** `r` is what a transaction makes of `db`, and `own` what it makes of the rows of `org` alone. */
  ghost predicate StaysInside(db: Db, r: Result<Db>, own: Result<Db>, org: Uuid) {
    match r
    case Err(error) => own == Err(error)
    case Ok(db') =>
      && own == Ok(RowsOf(db', org))
      && forall other :: other != org ==> RowsOf(db', other) == RowsOf(db, other)
  }

  /* Single writes. */

  lemma CaseWritten(db: Db, c: CaseId, row: CaseRow, org: Uuid)
    requires c in db.cases ==> db.cases[c].org == row.org
    ensures var rows := RowsOf(db, org);
            RowsOf(db.(cases := db.cases[c := row]), org)
            == if row.org == org then rows.(cases := rows.cases[c := row]) else rows
  {
    var rows, after := RowsOf(db, org), RowsOf(db.(cases := db.cases[c := row]), org);
    if row.org == org {
      assert after.cases == rows.cases[c := row];
    } else {
      assert after.cases == rows.cases;
    }
  }

  lemma AttemptStored(db: Db, c: CaseId, attempt: Attempt, org: Uuid)
    requires c in db.attempts ==> db.attempts[c].org == attempt.org
    ensures var rows := RowsOf(db, org);
            RowsOf(db.(attempts := db.attempts[c := attempt]), org)
            == if attempt.org == org then rows.(attempts := rows.attempts[c := attempt]) else rows
  {
    var rows, after := RowsOf(db, org), RowsOf(db.(attempts := db.attempts[c := attempt]), org);
    if attempt.org == org {
      assert after.attempts == rows.attempts[c := attempt];
    } else {
      assert after.attempts == rows.attempts;
    }
  }

  lemma EventWritten(db: Db, e: EventId, event: Event, org: Uuid)
    requires e !in db.events
    ensures var rows := RowsOf(db, org);
            RowsOf(db.(events := db.events[e := event]), org)
            == if event.org == org then rows.(events := rows.events[e := event]) else rows
  {
    var rows, after := RowsOf(db, org), RowsOf(db.(events := db.events[e := event]), org);
    if event.org == org {
      assert after.events == rows.events[e := event];
    } else {
      assert after.events == rows.events;
    }
  }

  lemma ApprovalAdded(db: Db, a: Approval, org: Uuid)
    ensures var rows := RowsOf(db, org);
            RowsOf(db.(approvals := db.approvals + [a]), org)
            == if a.org == org then rows.(approvals := rows.approvals + [a]) else rows
  {
    assert (db.approvals + [a])[..|db.approvals|] == db.approvals;
  }

  lemma AuditAdded(db: Db, row: AuditRow, org: Uuid)
    ensures RowsOf(Audited(db, row), org)
         == if row.org == org then Audited(RowsOf(db, org), row) else RowsOf(db, org)
  {
    assert (db.audit + [row])[..|db.audit|] == db.audit;
  }

  /* Queries. */

  lemma {:induction false} ApprovalsFiltered(approvals: seq<Approval>, a: Approval, org: Uuid)
    ensures a in ApprovalsOf(approvals, org) <==> a in approvals && a.org == org
  {
    if approvals != [] {
      var front, last := approvals[..|approvals| - 1], approvals[|approvals| - 1];
      ApprovalsFiltered(front, a, org);
      assert approvals == front + [last];
    }
  }

  /** The query for the refund approvals of a case names no organization, and needs none. */
  lemma {:induction false} SameRefundApprovals(approvals: seq<Approval>, c: CaseId, org: Uuid)
    requires forall a :: a in approvals && a.caseId == c ==> a.org == org
    ensures RefundApprovals(ApprovalsOf(approvals, org), c) == RefundApprovals(approvals, c)
  {
    if approvals != [] {
      var front, last := approvals[..|approvals| - 1], approvals[|approvals| - 1];
      SameRefundApprovals(front, c, org);
      assert last in approvals;
      if last.org == org {
        RefundApprovalsAppend(ApprovalsOf(front, org), last, c);
      } else {
        assert ApprovalsOf(approvals, org) == ApprovalsOf(front, org);
      }
    }
  }

  lemma OwnedRows(settings: Settings, db: Db, c: CaseId)
    requires DbInv(settings, db) && c in db.cases
    ensures Owned(db, c, db.cases[c].org)
  {
    assert CellOk(settings, c, CellOf(db, c));
    forall a | a in db.approvals && a.caseId == c ensures a.org == db.cases[c].org {
      var i :| 0 <= i < |db.approvals| && db.approvals[i] == a;
      assert ApprovalRowOk(CellOf(db, db.approvals[i].caseId), db.approvals[i]);
    }
  }

  /* The building blocks of the services. */

  lemma MovedInside(db: Db, c: CaseId, snap: CaseRow, target: ReturnStatus, context: Option<Context>,
                    approved: Option<int>, action: Action, org: Uuid)
    requires c in db.cases && db.cases[c].org == snap.org
    ensures var db' := CaseMoved(db, c, snap, target, context, approved, action);
            RowsOf(db', org) == if org == snap.org
                                then CaseMoved(RowsOf(db, org), c, snap, target, context, approved, action)
                                else RowsOf(db, org)
  {
    var row := MovedRow(db.cases[c], snap, target, approved);
    CaseWritten(db, c, row, org);
    AuditAdded(db.(cases := db.cases[c := row]),
               AuditRow(snap.org, ActorOf(context), action, CaseResource(c), Some(snap), Some(row)), org);
  }

  lemma CaseMovedInside(db: Db, c: CaseId, snap: CaseRow, target: ReturnStatus, context: Option<Context>,
                        approved: Option<int>, action: Action)
    requires Owned(db, c, snap.org)
    ensures var db' := CaseMoved(db, c, snap, target, context, approved, action);
            && StaysInside(db, Ok(db'),
                           Ok(CaseMoved(RowsOf(db, snap.org), c, snap, target, context, approved, action)), snap.org)
            && Owned(db', c, snap.org)
  {
    MovedInside(db, c, snap, target, context, approved, action, snap.org);
    forall other | other != snap.org {
      MovedInside(db, c, snap, target, context, approved, action, other);
    }
  }

  lemma CasInside(db: Db, c: CaseId, snap: CaseRow, target: ReturnStatus, context: Option<Context>, system: bool,
                  expected: int, approved: Option<int>, action: Action)
    requires Owned(db, c, snap.org)
    ensures var r := CasTransition(db, c, snap, target, context, system, expected, approved, action);
            && StaysInside(db, r, CasTransition(RowsOf(db, snap.org), c, snap, target, context, system, expected,
                                                approved, action), snap.org)
            && (r.Ok? ==> Owned(r.value, c, snap.org) && r.value.events == db.events)
  {
    CaseMovedInside(db, c, snap, target, context, approved, action);
  }

  lemma InsertInside(db: Db, a: Approval)
    requires Owned(db, a.caseId, a.org)
    ensures var r := InsertApproval(db, a);
            && StaysInside(db, r, InsertApproval(RowsOf(db, a.org), a), a.org)
            && (r.Ok? ==> Owned(r.value, a.caseId, a.org) && r.value.events == db.events)
  {
    forall b {
      ApprovalsFiltered(db.approvals, b, a.org);
    }
    forall org {
      ApprovalAdded(db, a, org);
    }
  }

  lemma EnqueueInside(db: Db, e: EventId, event: Event)
    requires e !in db.events
    ensures StaysInside(db, Enqueue(db, e, event), Enqueue(RowsOf(db, event.org), e, event), event.org)
  {
    forall org {
      EventWritten(db, e, event, org);
    }
  }

  lemma AttemptInside(db: Db, c: CaseId, attempt: Attempt)
    requires Owned(db, c, attempt.org)
    ensures var db' := db.(attempts := db.attempts[c := attempt]);
            && StaysInside(db, Ok(db'),
                           Ok(RowsOf(db, attempt.org).(attempts := RowsOf(db, attempt.org).attempts[c := attempt])),
                           attempt.org)
            && Owned(db', c, attempt.org)
  {
    forall org {
      AttemptStored(db, c, attempt, org);
    }
  }

  /* The commands. */

  lemma PlanInside(db: Db, c: CaseId, now: Time, e: EventId)
    requires c in db.cases && Owned(db, c, db.cases[c].org) && e !in db.events
    ensures StaysInside(db, PlanRefund(db, c, now, e), PlanRefund(RowsOf(db, db.cases[c].org), c, now, e),
                        db.cases[c].org)
  {
    var row := db.cases[c];
    if row.approved.Some? && c !in db.attempts {
      var attempt := NewAttempt(c, row, row.approved.value);
      var db1 := db.(attempts := db.attempts[c := attempt]);
      AttemptInside(db, c, attempt);
      CasInside(db1, c, row, RefundPending, None, true, row.version, None, RefundPlanned);
      var db2 := CasTransition(db1, c, row, RefundPending, None, true, row.version, None, RefundPlanned);
      if db2.Ok? {
        EnqueueInside(db2.value, e, NewEvent(row.org, RefundDispatch, c, now));
      }
    }
  }

  lemma ApproveAndPlanInside(db: Db, context: Context, c: CaseId, snap: CaseRow, expected: int, amount: int,
                             now: Time, e: EventId)
    requires Owned(db, c, snap.org) && e !in db.events
    ensures StaysInside(db, ApproveAndPlan(db, context, c, snap, expected, amount, now, e),
                        ApproveAndPlan(RowsOf(db, snap.org), context, c, snap, expected, amount, now, e), snap.org)
  {
    CasInside(db, c, snap, RefundApproved, Some(context), false, expected, Some(amount), RefundApprovedByFinance);
    var db1 := CasTransition(db, c, snap, RefundApproved, Some(context), false, expected, Some(amount),
                             RefundApprovedByFinance);
    if db1.Ok? {
      PlanInside(db1.value, c, now, e);
    }
  }

  lemma AuditInside(db: Db, r: Result<Db>, own: Result<Db>, row: AuditRow)
    requires StaysInside(db, r, own, row.org) && r.Ok?
    ensures StaysInside(db, Ok(Audited(r.value, row)), Ok(Audited(own.value, row)), row.org)
  {
    forall org {
      AuditAdded(r.value, row, org);
    }
  }

  lemma CaseInside(db: Db, c: CaseId, row: CaseRow)
    requires Owned(db, c, row.org)
    ensures var db' := db.(cases := db.cases[c := row]);
            && StaysInside(db, Ok(db'), Ok(RowsOf(db, row.org).(cases := RowsOf(db, row.org).cases[c := row])), row.org)
            && Owned(db', c, row.org)
  {
    forall org {
      CaseWritten(db, c, row, org);
    }
  }

  lemma FirstApprovalInside(db: Db, context: Context, c: CaseId, snap: CaseRow, amount: int)
    requires Owned(db, c, snap.org) && context.org == snap.org
    ensures StaysInside(db, RecordFirstApproval(db, context, c, snap, amount),
                        RecordFirstApproval(RowsOf(db, snap.org), context, c, snap, amount), snap.org)
  {
    SameGuard(db, c, snap);
    FirstApprovalIs(db, context, c, snap, amount);
    FirstApprovalIs(RowsOf(db, snap.org), context, c, snap, amount);
    if GuardHolds(db, c, snap) {
      RaisedInside(db, context, c, db.cases[c].(version := snap.version + 1), amount);
    }
  }

  lemma SameGuard(db: Db, c: CaseId, snap: CaseRow)
    requires Owned(db, c, snap.org)
    ensures c in RowsOf(db, snap.org).cases && RowsOf(db, snap.org).cases[c] == db.cases[c]
    ensures GuardHolds(RowsOf(db, snap.org), c, snap) <==> GuardHolds(db, c, snap)
  {
  }

  lemma FirstApprovalIs(db: Db, context: Context, c: CaseId, snap: CaseRow, amount: int)
    requires c in db.cases
    ensures var entry := AuditRow(context.org, Some(context.user), FirstApprovalRecorded, CaseResource(c), None, None);
            RecordFirstApproval(db, context, c, snap, amount)
            == if !GuardHolds(db, c, snap) then Err(VersionConflict)
               else match RaiseAndInsert(db, context, c, db.cases[c].(version := snap.version + 1), amount)
                    case Ok(db') => Ok(Audited(db', entry))
                    case Err(error) => Err(error)
  {
  }

  /** The row written and the approval inserted. */
  ghost function RaiseAndInsert(db: Db, context: Context, c: CaseId, row: CaseRow, amount: int): Result<Db> {
    InsertApproval(db.(cases := db.cases[c := row]), ApprovalBy(context, c, RefundApproval, amount))
  }

  lemma RaisedInside(db: Db, context: Context, c: CaseId, row: CaseRow, amount: int)
    requires Owned(db, c, row.org) && context.org == row.org
    ensures var entry := AuditRow(context.org, Some(context.user), FirstApprovalRecorded, CaseResource(c), None, None);
            var r, own := RaiseAndInsert(db, context, c, row, amount),
                          RaiseAndInsert(RowsOf(db, row.org), context, c, row, amount);
            && StaysInside(db, r, own, row.org)
            && (r.Ok? ==> StaysInside(db, Ok(Audited(r.value, entry)), Ok(Audited(own.value, entry)), row.org))
  {
    var r, own := RaiseAndInsert(db, context, c, row, amount),
                  RaiseAndInsert(RowsOf(db, row.org), context, c, row, amount);
    CaseInside(db, c, row);
    InsertInside(db.(cases := db.cases[c := row]), ApprovalBy(context, c, RefundApproval, amount));
    if r.Ok? {
      AuditInside(db, r, own,
                  AuditRow(context.org, Some(context.user), FirstApprovalRecorded, CaseResource(c), None, None));
    }
  }

  /** As `StaysInside` for the commands that also say whether a second approval is required. */
  ghost predicate FlaggedInside(db: Db, r: Result<(Db, bool)>, own: Result<(Db, bool)>, org: Uuid) {
    match r
    case Err(error) => own == Err(error)
    case Ok(done) =>
      && own == Ok((RowsOf(done.0, org), done.1))
      && forall other :: other != org ==> RowsOf(done.0, other) == RowsOf(db, other)
  }

  /** The approving half of `ApproveRefund`. */
  ghost function InsertAndPlan(db: Db, context: Context, c: CaseId, snap: CaseRow, expected: int, amount: int,
                               kind: ApprovalKind, now: Time, e: EventId): Result<(Db, bool)>
  {
    var db1 :- InsertApproval(db, ApprovalBy(context, c, kind, amount));
    var db2 :- ApproveAndPlan(db1, context, c, snap, expected, amount, now, e);
    Ok((db2, false))
  }

  lemma InsertAndPlanInside(db: Db, context: Context, c: CaseId, snap: CaseRow, expected: int, amount: int,
                            kind: ApprovalKind, now: Time, e: EventId)
    requires Owned(db, c, snap.org) && context.org == snap.org && e !in db.events
    ensures FlaggedInside(db, InsertAndPlan(db, context, c, snap, expected, amount, kind, now, e),
                          InsertAndPlan(RowsOf(db, snap.org), context, c, snap, expected, amount, kind, now, e),
                          snap.org)
  {
    var a := ApprovalBy(context, c, kind, amount);
    InsertInside(db, a);
    if InsertApproval(db, a).Ok? {
      ApproveAndPlanInside(InsertApproval(db, a).value, context, c, snap, expected, amount, now, e);
    }
  }

  /** The three ways an approval can go. */
  lemma ApproveCases(settings: Settings, db: Db, context: Context, c: CaseId, expected: int, amount: int,
                     snap: CaseRow, approvals: seq<Approval>, now: Time, e: EventId)
    ensures var r := ApproveRefund(settings, db, context, c, expected, amount, snap, approvals, now, e);
            match ApproveChecks(settings, context, expected, amount, snap, approvals)
            case Err(error) => r == Err(error)
            case Ok(None) =>
              r == (match RecordFirstApproval(db, context, c, snap, amount)
                    case Ok(db') => Ok((db', true))
                    case Err(error) => Err(error))
            case Ok(Some(kind)) => r == InsertAndPlan(db, context, c, snap, expected, amount, kind, now, e)
  {
  }

  /** What an approval is refused for before anything is written, or the kind of approval that
      completes it; `None` when it is the first of two. */
  function ApproveChecks(settings: Settings, context: Context, expected: int, amount: int, snap: CaseRow,
                         approvals: seq<Approval>): Result<Option<ApprovalKind>>
  {
    if !HasRole(context, {Finance}) then Err(PermissionDenied)
    else if snap.status != Inspected then Err(Conflict)
    else if expected != snap.version then Err(VersionConflict)
    else
      var _ :- AssertApprovedAmount(snap.requested, amount);
      if approvals == [] then
        Ok(if amount >= settings.highValueThreshold then None else Some(RefundApproval))
      else if amount < settings.highValueThreshold then Err(Conflict)
      else if approvals[0].amount != Some(amount) then Err(Conflict)
      else if approvals[0].user == context.user then Err(PermissionDenied)
      else if |approvals| >= 2 then Err(Conflict)
      else Ok(Some(HighValueSecond))
  }

  lemma ApproveInside(settings: Settings, db: Db, context: Context, c: CaseId, expected: int, amount: int,
                      approvals: seq<Approval>, now: Time, e: EventId)
    requires c in db.cases && Owned(db, c, context.org) && e !in db.events
    ensures var snap := db.cases[c];
            FlaggedInside(db, ApproveRefund(settings, db, context, c, expected, amount, snap, approvals, now, e),
                          ApproveRefund(settings, RowsOf(db, context.org), context, c, expected, amount, snap,
                                        approvals, now, e), context.org)
  {
    var snap := db.cases[c];
    ApproveCases(settings, db, context, c, expected, amount, snap, approvals, now, e);
    ApproveCases(settings, RowsOf(db, context.org), context, c, expected, amount, snap, approvals, now, e);
    match ApproveChecks(settings, context, expected, amount, snap, approvals) {
      case Ok(Some(kind)) => InsertAndPlanInside(db, context, c, snap, expected, amount, kind, now, e);
      case Ok(None) => FirstApprovalInside(db, context, c, snap, amount);
      case Err(_) =>
    }
  }

  lemma RetryInside(db: Db, context: Context, c: CaseId, expected: int, seen: Option<Attempt>, now: Time, e: EventId)
    requires c in db.cases && Owned(db, c, context.org) && e !in db.events
    ensures StaysInside(db, RetryFailedRefund(db, context, c, expected, db.cases[c], seen, now, e),
                        RetryFailedRefund(RowsOf(db, context.org), context, c, expected, db.cases[c], seen, now, e),
                        context.org)
  {
    if c in db.attempts {
      RetryWritesInside(db, context, c, expected, now, e);
    }
  }

  /** The writing half of `RetryFailedRefund`. */
  ghost function RetryWrites(db: Db, context: Context, c: CaseId, expected: int, snap: CaseRow, now: Time, e: EventId)
    : Result<Db>
    requires c in db.attempts
  {
    var db1 := db.(attempts := db.attempts[c := db.attempts[c].(status := Planned)]);
    var db2 :- CasTransition(db1, c, snap, RefundPending, None, true, expected, None, RetryAuthorized);
    Enqueue(db2, e, NewEvent(context.org, RefundDispatch, c, now))
  }

  lemma RetryWritesInside(db: Db, context: Context, c: CaseId, expected: int, now: Time, e: EventId)
    requires c in db.cases && c in db.attempts && Owned(db, c, context.org) && e !in db.events
    ensures c in RowsOf(db, context.org).attempts
    ensures StaysInside(db, RetryWrites(db, context, c, expected, db.cases[c], now, e),
                        RetryWrites(RowsOf(db, context.org), context, c, expected, db.cases[c], now, e), context.org)
  {
    var snap, attempt := db.cases[c], db.attempts[c].(status := Planned);
    var db1 := db.(attempts := db.attempts[c := attempt]);
    AttemptInside(db, c, attempt);
    CasInside(db1, c, snap, RefundPending, None, true, expected, None, RetryAuthorized);
    var db2 := CasTransition(db1, c, snap, RefundPending, None, true, expected, None, RetryAuthorized);
    if db2.Ok? {
      EnqueueInside(db2.value, e, NewEvent(context.org, RefundDispatch, c, now));
    }
  }

  lemma AuthorizeInside(db: Db, context: Context, c: CaseId, expected: int)
    requires c in db.cases && Owned(db, c, context.org)
    ensures StaysInside(db, AuthorizeCase(db, context, c, expected, db.cases[c]),
                        AuthorizeCase(RowsOf(db, context.org), context, c, expected, db.cases[c]), context.org)
  {
    var snap := db.cases[c];
    CasInside(db, c, snap, Authorized, Some(context), false, expected, None, ReturnAuthorized);
    var db1 := CasTransition(db, c, snap, Authorized, Some(context), false, expected, None, ReturnAuthorized);
    if db1.Ok? {
      InsertInside(db1.value, EligibilityApproval(context, c));
    }
  }

  lemma PlainInside(db: Db, context: Context, cmd: Command, seen: Option<Attempt>, now: Time, e: EventId)
    requires cmd.c in db.cases && Owned(db, cmd.c, context.org) && e !in db.events && !cmd.op.ApproveRefundOf?
    ensures StaysInside(db, CommitPlain(db, context, cmd, db.cases[cmd.c], seen, now, e),
                        CommitPlain(RowsOf(db, context.org), context, cmd, db.cases[cmd.c], seen, now, e), context.org)
  {
    var snap := db.cases[cmd.c];
    match cmd.op {
      case Authorize => AuthorizeInside(db, context, cmd.c, cmd.expected);
      case RetryFailed => RetryInside(db, context, cmd.c, cmd.expected, seen, now, e);
      case Receive => CasInside(db, cmd.c, snap, Received, Some(context), false, cmd.expected, None, ReturnReceived);
      case Inspect => CasInside(db, cmd.c, snap, Inspected, Some(context), false, cmd.expected, None, ReturnInspected);
      case Reject => CasInside(db, cmd.c, snap, Rejected, Some(context), false, cmd.expected, None, ReturnRejected);
      case MarkReconciled =>
        CasInside(db, cmd.c, snap, Reconciled, Some(context), false, cmd.expected, None, ReturnReconciled);
      case Close => CasInside(db, cmd.c, snap, Closed, Some(context), false, cmd.expected, None, ReturnClosed);
    }
  }

  lemma ExecInside(settings: Settings, db: Db, context: Context, cmd: Command, now: Time, e: EventId)
    requires DbInv(settings, db) && e !in db.events
    ensures FlaggedInside(db, Exec(settings, db, context, cmd, now, e),
                          Exec(settings, RowsOf(db, context.org), context, cmd, now, e), context.org)
  {
    if Visible(db, context, cmd.c) {
      OwnedRows(settings, db, cmd.c);
      SameRefundApprovals(db.approvals, cmd.c, context.org);
      if cmd.op.ApproveRefundOf? {
        ApproveInside(settings, db, context, cmd.c, cmd.expected, cmd.op.amount,
                      RefundApprovals(db.approvals, cmd.c), now, e);
      } else {
        PlainInside(db, context, cmd, AttemptOf(db, context, cmd.c), now, e);
      }
    }
  }

  lemma CreateInside(db: Db, context: Context, c: CaseId, requested: int, currency: string)
    requires c !in db.cases
    ensures StaysInside(db, CreateCase(db, context, c, requested, currency),
                        CreateCase(RowsOf(db, context.org), context, c, requested, currency), context.org)
  {
    var row := NewCase(context, requested, currency);
    var entry := AuditRow(context.org, Some(context.user), ReturnCreated, CaseResource(c), None, Some(row));
    var db1, rows := db.(cases := db.cases[c := row]), RowsOf(db, context.org);
    forall org {
      CaseWritten(db, c, row, org);
    }
    AuditInside(db, Ok(db1), Ok(rows.(cases := rows.cases[c := row])), entry);
  }

  /* The provider lookup. */

  lemma AttemptAuditedInside(db: Db, r: Result<Db>, own: Result<Db>, c: CaseId, action: Action, org: Uuid)
    requires StaysInside(db, r, own, org) && r.Ok? && c in r.value.attempts && r.value.attempts[c].org == org
    ensures c in own.value.attempts
    ensures StaysInside(db, Ok(AttemptAudited(r.value, c, action)), Ok(AttemptAudited(own.value, c, action)), org)
  {
    AuditInside(db, r, own, AuditRow(org, None, action, AttemptResource(c), None, None));
  }

  lemma ManualInside(db: Db, c: CaseId, snap: CaseRow)
    requires Owned(db, c, snap.org) && c in db.attempts
    ensures c in RowsOf(db, snap.org).attempts
    ensures StaysInside(db, MarkManualReconciliationNeeded(db, c, snap),
                        MarkManualReconciliationNeeded(RowsOf(db, snap.org), c, snap), snap.org)
  {
    CasInside(db, c, snap, NeedsReconciliation, None, true, snap.version, None, SystemReturn(NeedsReconciliation));
    var rows := RowsOf(db, snap.org);
    if snap.status == RefundPending || snap.status == RefundUnknown {
      var r := SystemTransition(db, c, snap, NeedsReconciliation);
      if r.Ok? {
        AttemptAuditedInside(db, r, SystemTransition(rows, c, snap, NeedsReconciliation), c,
                             ManualReconciliationRequired, snap.org);
      }
    } else {
      AttemptAuditedInside(db, Ok(db), Ok(rows), c, ManualReconciliationRequired, snap.org);
    }
  }

  lemma NotFoundInside(db: Db, c: CaseId, seen: Attempt, snap: CaseRow)
    requires Owned(db, c, snap.org) && c in db.attempts
    ensures c in RowsOf(db, snap.org).attempts
    ensures StaysInside(db, MarkAuthoritativelyNotFound(db, c, seen, snap),
                        MarkAuthoritativelyNotFound(RowsOf(db, snap.org), c, seen, snap), snap.org)
  {
    var attempt := AbsentAttempt(db.attempts[c], seen);
    AttemptInside(db, c, attempt);
    ManualInside(WithAttempt(db, c, attempt), c, snap);
  }

  lemma SuccessInside(db: Db, c: CaseId, seen: Attempt, snap: CaseRow, providerRef: string, evidence: Evidence)
    requires Owned(db, c, snap.org) && c in db.attempts
    ensures c in RowsOf(db, snap.org).attempts
    ensures StaysInside(db, MarkSuccess(db, c, seen, snap, providerRef, evidence),
                        MarkSuccess(RowsOf(db, snap.org), c, seen, snap, providerRef, evidence), snap.org)
  {
    var attempt := ConfirmedAttempt(db.attempts[c], providerRef, evidence);
    var db1 := WithAttempt(db, c, attempt);
    AttemptInside(db, c, attempt);
    CasInside(db1, c, snap, Refunded, None, true, snap.version, None, SystemReturn(Refunded));
    SuccessAudited(db1, c, snap);
  }

  lemma SuccessAudited(db: Db, c: CaseId, snap: CaseRow)
    requires Owned(db, c, snap.org) && c in db.attempts
    ensures var moves := snap.status == RefundPending || Uncertain(snap.status);
            var rows := RowsOf(db, snap.org);
            var r := if moves then SystemTransition(db, c, snap, Refunded) else Ok(db);
            var own := if moves then SystemTransition(rows, c, snap, Refunded) else Ok(rows);
            && StaysInside(db, r, own, snap.org)
            && (r.Ok? ==> && c in r.value.attempts && c in own.value.attempts
                          && StaysInside(db, Ok(AttemptAudited(r.value, c, ProviderConfirmed)),
                                         Ok(AttemptAudited(own.value, c, ProviderConfirmed)), snap.org))
  {
    var rows := RowsOf(db, snap.org);
    if snap.status == RefundPending || Uncertain(snap.status) {
      CasInside(db, c, snap, Refunded, None, true, snap.version, None, SystemReturn(Refunded));
      var r := SystemTransition(db, c, snap, Refunded);
      if r.Ok? {
        AttemptAuditedInside(db, r, SystemTransition(rows, c, snap, Refunded), c, ProviderConfirmed, snap.org);
      }
    } else {
      AttemptAuditedInside(db, Ok(db), Ok(rows), c, ProviderConfirmed, snap.org);
    }
  }

  ghost predicate ResolvedInside(db: Db, r: Result<(Db, Resolution)>, own: Result<(Db, Resolution)>, org: Uuid) {
    match r
    case Err(error) => own == Err(error)
    case Ok(done) =>
      && own == Ok((RowsOf(done.0, org), done.1))
      && forall other :: other != org ==> RowsOf(done.0, other) == RowsOf(db, other)
  }

  lemma LookupInside(settings: Settings, db: Db, context: Context, c: CaseId, snap: CaseRow, seen: Attempt,
                     observed: Observation)
    requires Owned(db, c, snap.org) && c in db.attempts && !observed.NotAsked?
    ensures c in RowsOf(db, snap.org).attempts
    ensures ResolvedInside(db, Reconcile(db, c, snap, seen, observed),
                           Reconcile(RowsOf(db, snap.org), c, snap, seen, observed), snap.org)
  {
    if observed.Found? {
      FoundInside(db, c, snap, seen, observed.row);
    } else {
      AbsentInside(db, c, snap, seen);
    }
  }

  lemma FoundInside(db: Db, c: CaseId, snap: CaseRow, seen: Attempt, row: ProviderRow)
    requires Owned(db, c, snap.org) && c in db.attempts
    ensures c in RowsOf(db, snap.org).attempts
    ensures ResolvedInside(db, Reconcile(db, c, snap, seen, Found(row)),
                           Reconcile(RowsOf(db, snap.org), c, snap, seen, Found(row)), snap.org)
  {
    if row.status == PaymentSucceeded {
      SuccessInside(db, c, seen, snap, row.refundId, EvidenceOf(row, ""));
    } else {
      ManualInside(db, c, snap);
    }
  }

  lemma AbsentInside(db: Db, c: CaseId, snap: CaseRow, seen: Attempt)
    requires Owned(db, c, snap.org) && c in db.attempts
    ensures c in RowsOf(db, snap.org).attempts
    ensures ResolvedInside(db, Reconcile(db, c, snap, seen, Absent),
                           Reconcile(RowsOf(db, snap.org), c, snap, seen, Absent), snap.org)
  {
    if seen.status == Unknown {
      NotFoundInside(db, c, seen, snap);
    } else {
      ManualInside(db, c, snap);
    }
  }

  /* Main results. */

  /** `db1` and `db2` agree on all rows of `org`. */
  ghost predicate SameRows(db1: Db, db2: Db, org: Uuid) {
    RowsOf(db1, org) == RowsOf(db2, org)
  }

  /** A command of an organization gives the same result and the same rows of it whatever other
      organizations have stored, and leaves their rows as they are. */
  lemma CommandsDoNotInterfere(settings: Settings, db1: Db, db2: Db, context: Context, cmd: Command, now: Time,
                               e: EventId)
    requires DbInv(settings, db1) && DbInv(settings, db2) && e !in db1.events && e !in db2.events
    requires SameRows(db1, db2, context.org)
    ensures var r1 := Exec(settings, db1, context, cmd, now, e);
            var r2 := Exec(settings, db2, context, cmd, now, e);
            match r1
            case Err(error) => r2 == Err(error)
            case Ok(done) =>
              && r2.Ok? && r2.value.1 == done.1
              && SameRows(done.0, r2.value.0, context.org)
              && (forall other :: other != context.org ==> SameRows(done.0, db1, other))
  {
    ExecInside(settings, db1, context, cmd, now, e);
    ExecInside(settings, db2, context, cmd, now, e);
  }

  lemma CreationsDoNotInterfere(db1: Db, db2: Db, context: Context, c: CaseId, requested: int, currency: string)
    requires c !in db1.cases && c !in db2.cases && SameRows(db1, db2, context.org)
    ensures var r1 := CreateCase(db1, context, c, requested, currency);
            var r2 := CreateCase(db2, context, c, requested, currency);
            match r1
            case Err(error) => r2 == Err(error)
            case Ok(db') =>
              && r2.Ok? && SameRows(db', r2.value, context.org)
              && (forall other :: other != context.org ==> SameRows(db', db1, other))
  {
    CreateInside(db1, context, c, requested, currency);
    CreateInside(db2, context, c, requested, currency);
  }

  /** The same for a provider lookup: it reads the same rows or is refused with the same error, and given
      the same provider answer it is resolved alike. */
  lemma LookupsDoNotInterfere(settings: Settings, db1: Db, db2: Db, context: Context, c: CaseId, observed: Observation)
    requires DbInv(settings, db1) && DbInv(settings, db2) && SameRows(db1, db2, context.org) && !observed.NotAsked?
    ensures BeginReconciliation(db1, context, c) == BeginReconciliation(db2, context, c)
    ensures BeginReconciliation(db1, context, c).Ok? ==>
              && c in db1.cases && c in db2.cases && c in db1.attempts && c in db2.attempts
              && var r1 := Reconcile(db1, c, db1.cases[c], db1.attempts[c], observed);
                 var r2 := Reconcile(db2, c, db2.cases[c], db2.attempts[c], observed);
                 match r1
                 case Err(error) => r2 == Err(error)
                 case Ok(done) =>
                   && r2.Ok? && r2.value.1 == done.1
                   && SameRows(done.0, r2.value.0, context.org)
                   && (forall other :: other != context.org ==> SameRows(done.0, db1, other))
  {
    SameCase(db1, db2, context.org, c);
    if BeginReconciliation(db1, context, c).Ok? {
      OwnedRows(settings, db1, c);
      OwnedRows(settings, db2, c);
      LookupInside(settings, db1, context, c, db1.cases[c], db1.attempts[c], observed);
      LookupInside(settings, db2, context, c, db2.cases[c], db2.attempts[c], observed);
    }
  }

  lemma SameCase(db1: Db, db2: Db, org: Uuid, c: CaseId)
    requires SameRows(db1, db2, org)
    ensures (c in db1.cases && db1.cases[c].org == org) <==> (c in db2.cases && db2.cases[c].org == org)
    ensures c in db1.cases && db1.cases[c].org == org ==> db1.cases[c] == db2.cases[c]
    ensures (c in db1.attempts && db1.attempts[c].org == org) <==> (c in db2.attempts && db2.attempts[c].org == org)
    ensures c in db1.attempts && db1.attempts[c].org == org ==> db1.attempts[c] == db2.attempts[c]
  {
    var rows1, rows2 := RowsOf(db1, org), RowsOf(db2, org);
    assert c in rows1.cases <==> c in rows2.cases;
    assert c in rows1.attempts <==> c in rows2.attempts;
    assert c in rows1.cases ==> rows1.cases[c] == rows2.cases[c];
    assert c in rows1.attempts ==> rows1.attempts[c] == rows2.attempts[c];
  }
}
