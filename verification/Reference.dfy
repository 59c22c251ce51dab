/** The protocol's effect on the tables a second time, written out as tables: who may do what in which
    status, which row is written with which values, and which audit rows are appended. Nothing here uses
    the functions that stand for the services. */
module Reference {
  import opened Domain
  import opened Tables
  import opened Returns
  import opened Provider
  import opened Confirmation
  import opened Protocol

  /* Rows. */

  function Onward(row: CaseRow, to: ReturnStatus): CaseRow {
    row.(status := to, version := row.version + 1)
  }

  /** The audit row of a case that goes from `row` to `row'`; `user` is who asked for it, if anyone did. */
  function Passage(c: CaseId, row: CaseRow, row': CaseRow, user: Option<Uuid>, action: Action): AuditRow {
    AuditRow(row.org, user, action, CaseResource(c), Some(row), Some(row'))
  }

  /** The audit row of an attempt; no user is behind it. */
  function Entry(c: CaseId, a: Attempt, action: Action): AuditRow {
    AuditRow(a.org, None, action, AttemptResource(c), None, None)
  }

  function WaitingEvent(org: Uuid, c: CaseId, now: Time): Event {
    Event(org, RefundDispatch, c, Pending, 0, now, None, now)
  }

  /* Transitions. */

  /** The edges of the lifecycle. */
  const EDGES: set<(ReturnStatus, ReturnStatus)> := {
    (Requested, Authorized), (Requested, Rejected), (Authorized, Received), (Received, Inspected),
    (Inspected, RefundApproved), (Inspected, Rejected), (RefundApproved, RefundPending),
    (RefundPending, Refunded), (RefundPending, RefundUnknown), (RefundPending, NeedsReconciliation),
    (RefundUnknown, Refunded), (RefundUnknown, NeedsReconciliation),
    (NeedsReconciliation, Refunded), (NeedsReconciliation, RefundPending),
    (Refunded, Reconciled), (Reconciled, Closed)}

  /** Who may lead a case there: nobody but the system into the statuses of a refund under way or done. */
  predicate MayEnter(role: Option<Role>, target: ReturnStatus, system: bool) {
    match target
    case Authorized => role in {Some(CustomerService), Some(Admin)}
    case Received | Inspected => role in {Some(Warehouse), Some(Admin)}
    case RefundApproved | Reconciled | Closed => role in {Some(Finance), Some(Admin)}
    case Rejected => role in {Some(CustomerService), Some(Finance), Some(Admin)}
    case RefundPending | RefundUnknown | NeedsReconciliation | Refunded => system
    case Requested => true
  }

  /** A guarded transition of a case read as `snap`. */
  function TransitionAnswer(db: Db, c: CaseId, snap: CaseRow, target: ReturnStatus, context: Option<Context>,
                            system: bool, expected: int, approved: Option<int>, action: Action): Result<Db>
  {
    var role := if context.Some? then Some(context.value.role) else None;
    if expected != snap.version then Err(VersionConflict)
    else if (snap.status, target) !in EDGES then Err(InvalidTransition)
    else if !MayEnter(role, target, system) then Err(PermissionDenied)
    else if !(c in db.cases && db.cases[c].org == snap.org && db.cases[c].version == snap.version
              && db.cases[c].status == snap.status) then Err(VersionConflict)
    else
      var moved := db.cases[c].(status := target, version := snap.version + 1);
      var row := if approved.Some? then moved.(approved := approved) else moved;
      Ok(db.(cases := db.cases[c := row],
             audit := db.audit + [AuditRow(snap.org, if context.Some? then Some(context.value.user) else None,
                                           action, CaseResource(c), Some(snap), Some(row))]))
  }

  /* Commands. */

  datatype Rule = Rule(roles: set<Role>, from: set<ReturnStatus>, to: ReturnStatus, action: Action)

  function RuleOf(op: Operation): Rule {
    match op
    case Authorize => Rule({CustomerService, Admin}, {Requested}, Authorized, ReturnAuthorized)
    case Receive => Rule({Warehouse, Admin}, {Authorized}, Received, ReturnReceived)
    case Inspect => Rule({Warehouse, Admin}, {Received}, Inspected, ReturnInspected)
    case Reject => Rule({CustomerService, Finance, Admin}, {Requested, Inspected}, Rejected, ReturnRejected)
    case ApproveRefundOf(_) => Rule({Finance, Admin}, {Inspected}, RefundPending, RefundPlanned)
    case RetryFailed => Rule({Finance, Admin}, {NeedsReconciliation}, RefundPending, RetryAuthorized)
    case MarkReconciled => Rule({Finance, Admin}, {Refunded}, Reconciled, ReturnReconciled)
    case Close => Rule({Finance, Admin}, {Reconciled}, Closed, ReturnClosed)
  }

  /** The commands that look at the status of the case before its version, and call a wrong one a conflict. */
  predicate StatusFirst(op: Operation) {
    op.Reject? || op.ApproveRefundOf? || op.RetryFailed?
  }

  /** What a command is refused for on account of user, case, version and status, in the order of the code. */
  function Refusal(db: Db, context: Context, cmd: Command): Option<Error> {
    var rule := RuleOf(cmd.op);
    var entitled, known := context.role in rule.roles, cmd.c in db.cases && db.cases[cmd.c].org == context.org;
    if !entitled && !cmd.op.Reject? then Some(PermissionDenied)
    else if !known then Some(NotFound)
    else if !entitled then Some(PermissionDenied)
    else if StatusFirst(cmd.op) && db.cases[cmd.c].status !in rule.from then Some(Conflict)
    else if db.cases[cmd.c].version != cmd.expected then Some(VersionConflict)
    else if db.cases[cmd.c].status !in rule.from then Some(InvalidTransition)
    else None
  }

  /** What an approval is refused for beyond that: the amount, and what has been approved before. */
  function ApprovalRefusal(settings: Settings, row: CaseRow, approvals: seq<Approval>, user: Uuid, amount: int)
    : Option<Error>
  {
    if amount <= 0 || amount > row.requested then Some(ValidationFailure)
    else if approvals == [] then None
    else if amount < settings.highValueThreshold then Some(Conflict)
    else if approvals[0].amount != Some(amount) then Some(Conflict)
    else if approvals[0].user == user then Some(PermissionDenied)
    else if |approvals| >= 2 then Some(Conflict)
    else None
  }

  /** The tables after a move that no other table takes part in. */
  function Moved(db: Db, context: Context, cmd: Command): Db
    requires cmd.c in db.cases
  {
    var row := db.cases[cmd.c];
    var row' := Onward(row, RuleOf(cmd.op).to);
    db.(cases := db.cases[cmd.c := row'],
        audit := db.audit + [Passage(cmd.c, row, row', Some(context.user), RuleOf(cmd.op).action)])
  }

  function AuthorizeAnswer(db: Db, context: Context, cmd: Command): Result<(Db, bool)>
    requires cmd.c in db.cases
  {
    if exists b :: b in db.approvals && b.caseId == cmd.c && b.kind == Eligibility && b.user == context.user
    then Err(UniqueViolation)
    else Ok((Moved(db, context, cmd).(approvals := db.approvals + [
               Approval(context.org, cmd.c, Eligibility, Approved, context.user, None)]), false))
  }

  /** The first of two approvals raises the version and leaves the rest of the case alone. */
  function FirstOfTwo(db: Db, context: Context, c: CaseId, amount: int): Db
    requires c in db.cases
  {
    db.(cases := db.cases[c := db.cases[c].(version := db.cases[c].version + 1)],
        approvals := db.approvals + [Approval(context.org, c, RefundApproval, Approved, context.user, Some(amount))],
        audit := db.audit + [AuditRow(context.org, Some(context.user), FirstApprovalRecorded, CaseResource(c), None,
                                      None)])
  }

  /** The approval that completes the decision: case, approval, attempt, event and two audit rows at once. */
  function Planned(db: Db, context: Context, c: CaseId, amount: int, kind: ApprovalKind, now: Time, e: EventId): Db
    requires c in db.cases
  {
    var row := db.cases[c];
    var approved := Onward(row, RefundApproved).(approved := Some(amount));
    var pending := Onward(approved, RefundPending);
    Db(db.cases[c := pending],
       db.approvals + [Approval(context.org, c, kind, Approved, context.user, Some(amount))],
       db.attempts[c := Attempt(row.org, RefundV1(c), amount, row.currency, AttemptStatus.Planned, None, 0, None)],
       db.events[e := WaitingEvent(row.org, c, now)],
       db.receipts,
       db.audit + [Passage(c, row, approved, Some(context.user), RefundApprovedByFinance),
                   Passage(c, approved, pending, None, RefundPlanned)])
  }

  function ApproveAnswer(settings: Settings, db: Db, context: Context, c: CaseId, amount: int, now: Time, e: EventId)
    : Result<(Db, bool)>
    requires c in db.cases
  {
    var approvals := RefundApprovals(db.approvals, c);
    match ApprovalRefusal(settings, db.cases[c], approvals, context.user, amount)
    case Some(error) => Err(error)
    case None =>
      if approvals == [] && amount >= settings.highValueThreshold then Ok((FirstOfTwo(db, context, c, amount), true))
      else if e in db.events then Err(UniqueViolation)
      else
        Ok((Planned(db, context, c, amount, if approvals == [] then RefundApproval else HighValueSecond, now, e),
            false))
  }

  function RetryAnswer(db: Db, context: Context, cmd: Command, seen: Option<Attempt>, now: Time, e: EventId)
    : Result<(Db, bool)>
    requires cmd.c in db.cases
  {
    if !(seen.Some? && seen.value.status == AttemptStatus.Failed) then Err(Conflict)
    else if cmd.c !in db.attempts then Err(RuntimeFailure)
    else if e in db.events then Err(UniqueViolation)
    else
      var c, row := cmd.c, db.cases[cmd.c];
      Ok((Db(db.cases[c := Onward(row, RefundPending)],
             db.approvals,
             db.attempts[c := db.attempts[c].(status := AttemptStatus.Planned)],
             db.events[e := WaitingEvent(context.org, c, now)],
             db.receipts,
             db.audit + [Passage(c, row, Onward(row, RefundPending), None, RetryAuthorized)]),
          false))
  }

  /** What a command answers: a refusal, or the new tables and whether a second approval is still needed. */
  function CommandAnswer(settings: Settings, db: Db, context: Context, cmd: Command, seen: Option<Attempt>, now: Time,
                         e: EventId): Result<(Db, bool)>
  {
    match Refusal(db, context, cmd)
    case Some(error) => Err(error)
    case None =>
      match cmd.op
      case Authorize => AuthorizeAnswer(db, context, cmd)
      case ApproveRefundOf(amount) => ApproveAnswer(settings, db, context, cmd.c, amount, now, e)
      case RetryFailed => RetryAnswer(db, context, cmd, seen, now, e)
      case _ => Ok((Moved(db, context, cmd), false))
  }

  /** What opening a case answers. */
  function OpeningAnswer(db: Db, context: Context, c: CaseId, requested: int, currency: string): Result<Db> {
    if context.role !in {CustomerService, Automation, Admin} then Err(PermissionDenied)
    else if requested <= 0 then Err(Conflict)
    else if c in db.cases then Err(UniqueViolation)
    else
      var row := CaseRow(context.org, requested, None, Upper(currency), Requested, 1);
      Ok(db.(cases := db.cases[c := row],
             audit := db.audit + [AuditRow(context.org, Some(context.user), ReturnCreated, CaseResource(c), None,
                                           Some(row))]))
  }

  /* Evidence. */

  /** Evidence of success that contradicts the recorded intent, or a confirmation on record. */
  predicate Contradicts(a: Attempt, providerRef: string, evidence: Evidence) {
    || providerRef == ""
    || evidence.LookupNotFound?
    || (evidence.amount.Some? && evidence.amount != Some(a.amount))
    || (evidence.currency.Some? && Upper(evidence.currency.value) != Upper(a.currency))
    || (a.status == Succeeded && a.providerRef.Some? && a.providerRef != Some("") && a.providerRef != Some(providerRef))
  }

  /** The attempt is confirmed, and the case refunded if it waited when read as `snap`. */
  function Confirmed(db: Db, c: CaseId, snap: CaseRow, providerRef: string, evidence: Evidence): Db
    requires c in db.attempts
  {
    var a, waits := db.attempts[c], snap.status in {RefundPending, RefundUnknown, NeedsReconciliation};
    db.(cases := if waits then db.cases[c := Onward(snap, Refunded)] else db.cases,
        attempts := db.attempts[c := a.(status := Succeeded, providerRef := Some(providerRef),
                                        evidence := Some(evidence))],
        audit := db.audit
                 + (if waits then [Passage(c, snap, Onward(snap, Refunded), None, SystemReturn(Refunded))] else [])
                 + [Entry(c, a, ProviderConfirmed)])
  }

  /** Evidence of success for an attempt read as `seen` and a case read as `snap`. */
  function EvidenceAnswer(db: Db, c: CaseId, seen: Attempt, snap: CaseRow, providerRef: string, evidence: Evidence)
    : Result<Db>
    requires c in db.attempts && c in db.cases
  {
    if Contradicts(seen, providerRef, evidence) then Err(Conflict)
    else if snap.status in {RefundPending, RefundUnknown, NeedsReconciliation} && db.cases[c] != snap
    then Err(VersionConflict)
    else Ok(Confirmed(db, c, snap, providerRef, evidence))
  }

  /** What a provider row says when it is quoted in event `eventId`, or in a reply. */
  function Quote(row: ProviderRow, eventId: string): Evidence {
    ProviderEvidence(eventId, row.refundId, Some(row.amount), Some(row.currency))
  }

  /** Handed over to a human; the case moves if it was pending or unknown when read as `snap`. */
  function HandedOver(db: Db, c: CaseId, snap: CaseRow): Db
    requires c in db.attempts
  {
    var moves, to := snap.status in {RefundPending, RefundUnknown}, Onward(snap, NeedsReconciliation);
    db.(cases := if moves then db.cases[c := to] else db.cases,
        audit := db.audit
                 + (if moves then [Passage(c, snap, to, None, SystemReturn(NeedsReconciliation))] else [])
                 + [Entry(c, db.attempts[c], ManualReconciliationRequired)])
  }

  function HandOverAnswer(db: Db, c: CaseId, snap: CaseRow): Result<Db>
    requires c in db.attempts && c in db.cases
  {
    if snap.status in {RefundPending, RefundUnknown} && db.cases[c] != snap then Err(VersionConflict)
    else Ok(HandedOver(db, c, snap))
  }

  /** A webhook whose key is that of the attempt of case `owner`, if of any. */
  function WebhookAnswer(db: Db, owner: Option<CaseId>, p: Payload): Result<(Db, bool)>
    requires owner.Some? ==> owner.value in db.attempts
  {
    var noted := db.(receipts := db.receipts[p.eventId := p]);
    if p.eventId == "" then Err(Conflict)
    else if p.eventId in db.receipts then (if db.receipts[p.eventId] == p then Ok((db, true)) else Err(Conflict))
    else if owner.None? then Err(NotFound)
    else if p.status != PaymentSucceeded then Ok((noted, false))
    else if p.refundId == "" then Err(Conflict)
    else
      var c := owner.value;
      if !(c in db.cases && db.cases[c].org == db.attempts[c].org) then Err(RuntimeFailure)
      else
        match EvidenceAnswer(noted, c, db.attempts[c], db.cases[c], p.refundId,
                             ProviderEvidence(p.eventId, p.refundId, p.amount, p.currency))
        case Ok(db') => Ok((db', false))
        case Err(error) => Err(error)
  }

  /** What a lookup reads before it asks. */
  function LookupReads(db: Db, context: Context, c: CaseId): Result<(CaseRow, Attempt)> {
    if context.role !in {Finance, Admin} then Err(PermissionDenied)
    else if !(c in db.cases && db.cases[c].org == context.org) then Err(NotFound)
    else if db.cases[c].status !in {RefundUnknown, NeedsReconciliation} then Err(Conflict)
    else if !(c in db.attempts && db.attempts[c].org == context.org) then Err(NotFound)
    else Ok((db.cases[c], db.attempts[c]))
  }

  /** What the operator is told: success confirmed, some other status, absence confirmed, or a human has to
      look. */
  function ResolutionOf(seen: Attempt, observed: Observation): Resolution {
    if observed.Found? then (if observed.row.status == PaymentSucceeded then ConfirmedSuccess else NonTerminal)
    else if seen.status == Unknown then ConfirmedAbsent
    else ManualReview
  }

  /** A lookup that has read `seen` and `snap` commits the answer `observed`. */
  function LookupAnswer(db: Db, c: CaseId, snap: CaseRow, seen: Attempt, observed: Observation)
    : Result<(Db, Resolution)>
    requires c in db.attempts && c in db.cases && !observed.NotAsked?
  {
    var a := db.attempts[c];
    var absent := a.(status := AttemptStatus.Failed,
                     evidence := if seen.evidence == Some(LookupNotFound) then a.evidence else Some(LookupNotFound));
    var r :=
      match ResolutionOf(seen, observed)
      case ConfirmedSuccess => EvidenceAnswer(db, c, seen, snap, observed.row.refundId, Quote(observed.row, ""))
      case ConfirmedAbsent => HandOverAnswer(db.(attempts := db.attempts[c := absent]), c, snap)
      case _ => HandOverAnswer(db, c, snap);
    match r
    case Ok(db') => Ok((db', ResolutionOf(seen, observed)))
    case Err(error) => Err(error)
  }

  /* The worker. */

  /** The event is finished with this status. */
  function Finished(db: Db, e: EventId, status: EventStatus): Db
    requires e in db.events
  {
    db.(events := db.events[e := db.events[e].(status := status, leaseUntil := None)])
  }

  function Leased(db: Db, e: EventId, now: Time, leaseSeconds: int): Db
    requires e in db.events
  {
    var event := db.events[e];
    db.(events := db.events[e := event.(status := Processing, leaseUntil := Some(now + leaseSeconds * 1_000_000),
                                        attempts := event.attempts + 1)])
  }

  /** The first half of `process_event` on an event in processing. */
  function Begun(db: Db, e: EventId): Db
    requires e in db.events && db.events[e].caseId in db.attempts
  {
    var c := db.events[e].caseId;
    var a := db.attempts[c];
    if a.status in {Succeeded, Unknown} then Finished(db, e, EventStatus.Done)
    else
      db.(attempts := db.attempts[c := a.(status := Dispatching, dispatchCount := a.dispatchCount + 1)],
          audit := db.audit + (if a.status == Dispatching then [Entry(c, a, DispatchRecovered)] else []))
  }

  /** Marked unknown; a pending case becomes unknown with its attempt. */
  function MadeUnknown(db: Db, c: CaseId): Db
    requires c in db.attempts && c in db.cases
  {
    var a, row, to := db.attempts[c], db.cases[c], Onward(db.cases[c], RefundUnknown);
    var pending := row.status == RefundPending;
    db.(cases := if pending then db.cases[c := to] else db.cases,
        attempts := db.attempts[c := a.(status := Unknown)],
        audit := db.audit
                 + (if pending then [Passage(c, row, to, None, SystemReturn(RefundUnknown))] else [])
                 + [Entry(c, a, OutcomeUnknown)])
  }

  /** No usable reply. */
  function TimedOutTables(db: Db, e: EventId): Db
    requires e in db.events && db.events[e].caseId in db.attempts && db.events[e].caseId in db.cases
  {
    var c := db.events[e].caseId;
    if db.attempts[c].status == Succeeded then Finished(db, e, EventStatus.Done)
    else Finished(MadeUnknown(db, c), e, EventStatus.Done)
  }

  /** Refused: failed and queued again, or given up. */
  function RefusedTables(settings: Settings, db: Db, e: EventId, now: Time): Db
    requires e in db.events && db.events[e].caseId in db.attempts && db.events[e].caseId in db.cases
  {
    var c, event := db.events[e].caseId, db.events[e];
    var a := db.attempts[c];
    var failed := db.(attempts := db.attempts[c := a.(status := AttemptStatus.Failed)],
                      audit := db.audit + [Entry(c, a, DispatchKnownFailure)]);
    if event.attempts >= settings.maxDispatchAttempts
    then Finished(HandedOver(failed, c, db.cases[c]), e, EventStatus.Dead)
    else
      failed.(events := db.events[e := event.(status := EventStatus.Pending, leaseUntil := None,
                                              availableAt := now + DelaySeconds(event.attempts) * 1_000_000)])
  }

  /** 1, 2, 4, 8, 16, 32 seconds, and a minute from the seventh attempt on. */
  function DelaySeconds(attempts: int): int {
    if attempts <= 1 then 1
    else if attempts == 2 then 2
    else if attempts == 3 then 4
    else if attempts == 4 then 8
    else if attempts == 5 then 16
    else if attempts == 6 then 32
    else 60
  }

  function ConfirmedTables(db: Db, e: EventId, row: ProviderRow): Db
    requires e in db.events && db.events[e].caseId in db.attempts && db.events[e].caseId in db.cases
  {
    var c := db.events[e].caseId;
    Finished(Confirmed(db, c, db.cases[c], row.refundId, Quote(row, "")), e, EventStatus.Done)
  }

  /** Evidence that contradicts the intent: unknown, handed over, and the event is dead. */
  function ContradictedTables(db: Db, e: EventId): Db
    requires e in db.events && db.events[e].caseId in db.attempts && db.events[e].caseId in db.cases
  {
    var c := db.events[e].caseId;
    Finished(HandedOver(MadeUnknown(db, c), c, MadeUnknown(db, c).cases[c]), e, EventStatus.Dead)
  }

  /* Steps. */

  function SettledTables(settings: Settings, w: World, s: nat, outcome: Outcome): Db {
    if !(WaitsOn(w, s) && w.db.events[w.sessions[s].e].caseId in w.db.cases) then w.db
    else
      var e, phase := w.sessions[s].e, w.calls[w.sessions[s].stage.call].phase;
      match outcome
      case TimedOut => TimedOutTables(w.db, e)
      case RepliedRefused => RefusedTables(settings, w.db, e, w.now)
      case Replied => if phase.Answered? then ConfirmedTables(w.db, e, phase.reply) else w.db
  }

  function CommandTables(settings: Settings, w: World, t: nat, e: EventId): Db {
    if t !in w.txns then w.db
    else
      match CommandAnswer(settings, w.db, w.txns[t].context, w.txns[t].cmd, w.txns[t].seen, w.now, e)
      case Ok(done) => done.0
      case Err(_) => w.db
  }

  function LookupTables(w: World, l: nat): Db {
    if !(l in w.lookups && w.lookups[l].seen.Some? && !w.lookups[l].observed.NotAsked?
         && w.lookups[l].c in w.db.attempts && w.lookups[l].c in w.db.cases) then w.db
    else
      match LookupAnswer(w.db, w.lookups[l].c, w.lookups[l].snap, w.lookups[l].seen.value, w.lookups[l].observed)
      case Ok(done) => done.0
      case Err(_) => w.db
  }

  function WebhookTables(w: World, key: ProviderKey, eventId: string): Db {
    if !(key.RefundV1? && key in w.refunds && key.caseId in w.db.attempts) then w.db
    else
      var row := w.refunds[key];
      match WebhookAnswer(w.db, Some(key.caseId), Payload(eventId, row.refundId, key, row.status, Some(row.amount),
                                                          Some(row.currency)))
      case Ok(done) => done.0
      case Err(_) => w.db
  }

  function BegunTables(w: World, s: nat): Db {
    if !(s in w.sessions && w.sessions[s].e in w.db.events && w.db.events[w.sessions[s].e].status == Processing
         && w.db.events[w.sessions[s].e].caseId in w.db.attempts)
    then w.db
    else Begun(w.db, w.sessions[s].e)
  }

  function OpenedTables(db: Db, context: Context, c: CaseId, requested: int, currency: string): Db {
    match OpeningAnswer(db, context, c, requested, currency)
    case Ok(db') => db'
    case Err(_) => db
  }

  /** The tables after a step that can be taken. */
  function TablesAfter(settings: Settings, w: World, step: Step): Db {
    match step
    case Create(context, c, requested, currency) => OpenedTables(w.db, context, c, requested, currency)
    case TxnCommit(t, e) => CommandTables(settings, w, t, e)
    case LookupCommit(l) => LookupTables(w, l)
    case Webhook(key, eventId) => WebhookTables(w, key, eventId)
    case Claim(_, e) => if e in w.db.events then Leased(w.db, e, w.now, settings.leaseSeconds) else w.db
    case Begin(s) => BegunTables(w, s)
    case Settle(s, outcome) => SettledTables(settings, w, s, outcome)
    case _ => w.db
  }
}
