/** One case seen across all tables, and what is always true of it. */
module Cells {
  import opened Domain
  import opened Tables
  import opened History
  import opened CaseStore

  /** The case row, refund approvals, attempt and audit log of one case. */
  datatype Cell = Cell(
    row: Option<CaseRow>,
    approvals: seq<Approval>,
    attempt: Option<Attempt>,
    log: seq<AuditRow>)

  function CellOf(db: Db, c: CaseId): Cell {
    Cell(if c in db.cases then Some(db.cases[c]) else None,
         RefundApprovals(db.approvals, c),
         if c in db.attempts then Some(db.attempts[c]) else None,
         CaseAudit(db.audit, c))
  }

  /** 0 < amount <= requested. */
  predicate AmountInRange(row: CaseRow, amount: int) {
    0 < amount <= row.requested
  }

  predicate RowOk(row: CaseRow) {
    && row.requested > 0
    && row.status != RefundApproved
    && (row.approved.Some? <==> PastApproval(row.status))
    && (row.approved.Some? ==> AmountInRange(row, row.approved.value))
  }

  /** The attempt carries the approved intent, and its status fits the status of the case. */
  predicate AttemptOk(c: CaseId, row: CaseRow, a: Attempt) {
    && a.org == row.org
    && a.key == RefundV1(c)
    && Some(a.amount) == row.approved
    && a.currency == row.currency
    && (row.status == RefundPending ==> a.status in {Planned, Dispatching, Failed})
    && (a.status == Succeeded ==> Final(row.status))
    && (a.providerRef.Some? <==> Final(row.status))
  }

  /** The approvals on record while no refund has been approved. */
  predicate AtMostFirstApproval(settings: Settings, row: CaseRow, approvals: seq<Approval>) {
    |approvals| == 0
    || (|approvals| == 1
        && approvals[0].amount.Some?
        && AmountInRange(row, approvals[0].amount.value)
        && approvals[0].amount.value >= settings.highValueThreshold)
  }

  /** One approval of exactly `amount`; two, by two users, when `amount` is high. */
  predicate FourEyes(settings: Settings, approvals: seq<Approval>, amount: int) {
    if amount < settings.highValueThreshold
    then |approvals| == 1 && approvals[0].amount == Some(amount)
    else |approvals| == 2
         && approvals[0].amount == Some(amount)
         && approvals[1].amount == Some(amount)
         && approvals[0].user != approvals[1].user
  }

  predicate ApprovalsOk(settings: Settings, row: CaseRow, approvals: seq<Approval>) {
    && (row.status in {Requested, Authorized, Received} ==> approvals == [])
    && (row.status in {Inspected, Rejected} ==> AtMostFirstApproval(settings, row, approvals))
    && (row.approved.Some? ==> FourEyes(settings, approvals, row.approved.value))
  }

  predicate LogOk(cell: Cell)
    requires cell.row.Some?
  {
    && Replay(cell.log).Some?
    && Replay(cell.log).value.row == cell.row.value
    && (Replay(cell.log).value.firstApproved ==> cell.approvals != [])
  }

  predicate CellOk(settings: Settings, c: CaseId, cell: Cell) {
    match cell.row
    case None => cell.approvals == [] && cell.attempt.None? && cell.log == []
    case Some(row) =>
      && RowOk(row)
      && (cell.attempt.Some? <==> PastApproval(row.status))
      && (cell.attempt.Some? ==> AttemptOk(c, row, cell.attempt.value))
      && ApprovalsOk(settings, row, cell.approvals)
      && LogOk(cell)
  }

  /** What no step takes back: the log, the intent, a final status and the provider reference; and
      whoever changes the row or the refund approvals raises the version. */
  predicate CellEvolves(before: Cell, after: Cell) {
    && before.log <= after.log
    && (before.row.Some? ==>
          && after.row.Some?
          && after.row.value.org == before.row.value.org
          && after.row.value.requested == before.row.value.requested
          && (before.row.value.status != Requested ==> after.row.value.status != Requested)
          && (before.row.value.approved.Some? ==> after.row.value.approved.Some?)
          && ((after.row == before.row && after.approvals == before.approvals)
              || after.row.value.version > before.row.value.version)
          && (Final(before.row.value.status) ==> Final(after.row.value.status)))
    && (before.attempt.Some? ==>
          && after.attempt.Some?
          && after.attempt.value.org == before.attempt.value.org
          && after.attempt.value.key == before.attempt.value.key
          && after.attempt.value.amount == before.attempt.value.amount
          && after.attempt.value.currency == before.attempt.value.currency
          && after.attempt.value.dispatchCount == before.attempt.value.dispatchCount
          && (before.attempt.value.evidence.Some? ==> after.attempt.value.evidence.Some?)
          && (before.attempt.value.providerRef.Some? ==>
                after.attempt.value.providerRef == before.attempt.value.providerRef))
    && (before.attempt.None? && after.attempt.Some? ==>
          after.attempt.value.dispatchCount == 0 && after.attempt.value.providerRef.None?)
  }

  /** Every cell but that of `c0` is the same. */
  ghost predicate OnlyCell(db: Db, db': Db, c0: CaseId) {
    forall c {:trigger CellOf(db', c)} :: c != c0 ==> CellOf(db', c) == CellOf(db, c)
  }

  /* How the primitive writes change the cells. */

  lemma CellsAudited(db: Db, row: AuditRow)
    ensures forall c {:trigger CellOf(Audited(db, row), c)} ::
              CellOf(Audited(db, row), c)
              == CellOf(db, c).(log := CellOf(db, c).log + (if row.resource == CaseResource(c) then [row] else []))
  {
    forall c {
      CaseAuditAppend(db.audit, row, c);
    }
  }

  lemma CellsCaseMoved(db: Db, c: CaseId, snap: CaseRow, target: ReturnStatus, context: Option<Context>,
                       approved: Option<int>, action: Action)
    requires c in db.cases
    ensures var db' := CaseMoved(db, c, snap, target, context, approved, action);
            var row := MovedRow(db.cases[c], snap, target, approved);
            && OnlyCell(db, db', c)
            && CellOf(db', c) == CellOf(db, c).(
                 row := Some(row),
                 log := CellOf(db, c).log
                        + [AuditRow(snap.org, ActorOf(context), action, CaseResource(c), Some(snap), Some(row))])
            && db'.approvals == db.approvals && db'.events == db.events && db'.receipts == db.receipts
  {
    var row := MovedRow(db.cases[c], snap, target, approved);
    CellsAudited(db.(cases := db.cases[c := row]),
                 AuditRow(snap.org, ActorOf(context), action, CaseResource(c), Some(snap), Some(row)));
  }

  lemma CellsApproved(db: Db, a: Approval)
    ensures var db' := db.(approvals := db.approvals + [a]);
            && OnlyCell(db, db', a.caseId)
            && CellOf(db', a.caseId) == CellOf(db, a.caseId).(
                 approvals := CellOf(db, a.caseId).approvals + (if IsRefundApproval(a, a.caseId) then [a] else []))
  {
    forall c {
      RefundApprovalsAppend(db.approvals, a, c);
    }
  }
}
