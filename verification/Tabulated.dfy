/** The services do what the tables of `Reference` say: the same answers to every command, and the same
    rows after every step. */
module Tabulated {
  import opened Domain
  import opened Tables
  import opened CaseStore
  import opened Outbox
  import opened Refunds
  import opened Returns
  import opened Payments
  import opened Provider
  import opened Confirmation
  import opened Worker
  import opened Cells
  import opened Ledger
  import opened Settlement
  import opened Protocol
  import opened Safety
  import opened Guarantees
  import opened Leases
  import opened Tenancy
  import opened Outlook
  import R = Reference

  /* Transitions. */

  lemma EdgesAsTabulated(from: ReturnStatus, to: ReturnStatus)
    ensures to in Transitions(from) <==> (from, to) in R.EDGES
  {
  }

  lemma ActorsAsTabulated(role: Option<Role>, target: ReturnStatus, system: bool)
    ensures AssertActorCanTransition(role, target, system)
         == if R.MayEnter(role, target, system) then Ok(()) else Err(PermissionDenied)
  {
  }

  /** Every guarded transition, by whomever and from whatever was read, is answered as tabulated. */
  lemma TransitionsAsTabulated(db: Db, c: CaseId, snap: CaseRow, target: ReturnStatus, context: Option<Context>,
                               system: bool, expected: int, approved: Option<int>, action: Action)
    ensures CasTransition(db, c, snap, target, context, system, expected, approved, action)
         == R.TransitionAnswer(db, c, snap, target, context, system, expected, approved, action)
  {
    EdgesAsTabulated(snap.status, target);
    ActorsAsTabulated(RoleOf(context), target, system);
  }

  /* Opening a case. */

  lemma OpeningsAsTabulated(db: Db, context: Context, c: CaseId, requested: int, currency: string)
    ensures CreateCase(db, context, c, requested, currency)
         == R.OpeningAnswer(db, context, c, requested, currency)
  {
  }

  /* Commands. */

  /** The commands that move the case and nothing else, and whose role gate comes first. */
  predicate OnlyMoves(op: Operation) {
    op.Receive? || op.Inspect? || op.MarkReconciled? || op.Close?
  }

  lemma MovesAsTabulated(settings: Settings, db: Db, context: Context, cmd: Command, seen: Option<Attempt>, now: Time,
                         e: EventId)
    requires OnlyMoves(cmd.op)
    ensures ExecOn(settings, db, context, cmd, seen, now, e)
         == R.CommandAnswer(settings, db, context, cmd, seen, now, e)
  {
    var target := R.RuleOf(cmd.op).to;
    if Visible(db, context, cmd.c) {
      TransitionsAsTabulated(db, cmd.c, db.cases[cmd.c], target, Some(context), false, cmd.expected, None,
                             R.RuleOf(cmd.op).action);
    }
  }

  lemma RejectAsTabulated(settings: Settings, db: Db, context: Context, cmd: Command, seen: Option<Attempt>, now: Time,
                          e: EventId)
    requires cmd.op.Reject?
    ensures ExecOn(settings, db, context, cmd, seen, now, e)
         == R.CommandAnswer(settings, db, context, cmd, seen, now, e)
  {
  }

  lemma AuthorizeAsTabulated(settings: Settings, db: Db, context: Context, cmd: Command, seen: Option<Attempt>,
                             now: Time, e: EventId)
    requires cmd.op.Authorize?
    ensures ExecOn(settings, db, context, cmd, seen, now, e)
         == R.CommandAnswer(settings, db, context, cmd, seen, now, e)
  {
  }

  lemma RetryAsTabulated(settings: Settings, db: Db, context: Context, cmd: Command, seen: Option<Attempt>, now: Time,
                         e: EventId)
    requires cmd.op.RetryFailed?
    ensures ExecOn(settings, db, context, cmd, seen, now, e)
         == R.CommandAnswer(settings, db, context, cmd, seen, now, e)
  {
  }

  lemma FirstOfTwoAsTabulated(db: Db, context: Context, c: CaseId, amount: int)
    requires c in db.cases && Unblocked(db, ApprovalBy(context, c, RefundApproval, amount))
    ensures RecordFirstApproval(db, context, c, db.cases[c], amount) == Ok(R.FirstOfTwo(db, context, c, amount))
  {
  }

  lemma PlanAsTabulated(db: Db, context: Context, c: CaseId, amount: int, kind: ApprovalKind, now: Time, e: EventId)
    requires c in db.cases && c !in db.attempts && db.cases[c].status == Inspected && HasRole(context, {Finance})
    requires Unblocked(db, ApprovalBy(context, c, kind, amount))
    ensures InsertAndPlan(db, context, c, db.cases[c], db.cases[c].version, amount, kind, now, e)
         == if e in db.events then Err(UniqueViolation)
            else Ok((R.Planned(db, context, c, amount, kind, now, e), false))
  {
    var db1 := InsertApproval(db, ApprovalBy(context, c, kind, amount)).value;
    if e !in db.events {
      PlanAccepted(db1, context, c, amount, now, e);
      var db2 := ApproveAndPlan(db1, context, c, db.cases[c], db.cases[c].version, amount, now, e).value;
      PlannedTables(db1, context, c, db.cases[c].version, amount, now, e, db2);
      PlannedRows(db1, db2, context, c, amount, now, e);
    }
  }

  lemma PlannedRows(db1: Db, db2: Db, context: Context, c: CaseId, amount: int, now: Time, e: EventId)
    requires c in db1.cases && c !in db1.attempts
    requires db2 == PlannedDb(db1, context, c, amount).(
                      events := db1.events[e := NewEvent(db1.cases[c].org, RefundDispatch, c, now)])
    ensures var row := db1.cases[c];
            var approved := R.Onward(row, RefundApproved).(approved := Some(amount));
            var pending := R.Onward(approved, RefundPending);
            && db2.cases == db1.cases[c := pending]
            && db2.attempts == db1.attempts[
                                 c := Attempt(row.org, RefundV1(c), amount, row.currency, Planned, None, 0, None)]
            && db2.events == db1.events[e := R.WaitingEvent(row.org, c, now)]
            && db2.approvals == db1.approvals && db2.receipts == db1.receipts
            && db2.audit == db1.audit
                            + [R.Passage(c, row, approved, Some(context.user), RefundApprovedByFinance),
                               R.Passage(c, approved, pending, None, RefundPlanned)]
  {
  }

  lemma ApproveAsTabulated(settings: Settings, db: Db, context: Context, cmd: Command, seen: Option<Attempt>, now: Time,
                           e: EventId)
    requires DbInv(settings, db) && cmd.op.ApproveRefundOf?
    ensures ExecOn(settings, db, context, cmd, seen, now, e)
         == R.CommandAnswer(settings, db, context, cmd, seen, now, e)
  {
    var c, amount := cmd.c, cmd.op.amount;
    if HasRole(context, {Finance}) && Visible(db, context, c) && db.cases[c].status == Inspected {
      var approvals := RefundApprovals(db.approvals, c);
      var kind := if approvals == [] then RefundApproval else HighValueSecond;
      assert CellOk(settings, c, CellOf(db, c));
      ApprovalUnblocked(settings, db, context, c, kind, amount);
      FirstOfTwoOrNot(settings, db, context, c, amount, kind);
      PlanAsTabulated(db, context, c, amount, kind, now, e);
      ApproveCases(settings, db, context, c, cmd.expected, amount, db.cases[c], approvals, now, e);
      ChecksAsTabulated(settings, context, cmd.expected, amount, db.cases[c], approvals);
    }
  }

  lemma FirstOfTwoOrNot(settings: Settings, db: Db, context: Context, c: CaseId, amount: int, kind: ApprovalKind)
    requires c in db.cases && Unblocked(db, ApprovalBy(context, c, kind, amount))
    ensures kind == RefundApproval ==>
              RecordFirstApproval(db, context, c, db.cases[c], amount) == Ok(R.FirstOfTwo(db, context, c, amount))
  {
    if kind == RefundApproval {
      FirstOfTwoAsTabulated(db, context, c, amount);
    }
  }

  lemma ChecksAsTabulated(settings: Settings, context: Context, expected: int, amount: int, row: CaseRow,
                          approvals: seq<Approval>)
    requires HasRole(context, {Finance}) && row.status == Inspected
    ensures ApproveChecks(settings, context, expected, amount, row, approvals)
         == if expected != row.version then Err(VersionConflict)
            else match R.ApprovalRefusal(settings, row, approvals, context.user, amount)
                 case Some(error) => Err(error)
                 case None => Ok(if approvals == [] && amount >= settings.highValueThreshold then None
                                 else Some(if approvals == [] then RefundApproval else HighValueSecond))
  {
  }

  /** Every command, run alone or with an attempt read earlier, is answered as tabulated: the same refusal
      in every case, or the same tables. */
  lemma CommandsAsTabulated(settings: Settings, db: Db, context: Context, cmd: Command, seen: Option<Attempt>,
                            now: Time, e: EventId)
    requires DbInv(settings, db)
    ensures ExecOn(settings, db, context, cmd, seen, now, e)
         == R.CommandAnswer(settings, db, context, cmd, seen, now, e)
  {
    match cmd.op {
      case Authorize => AuthorizeAsTabulated(settings, db, context, cmd, seen, now, e);
      case ApproveRefundOf(_) => ApproveAsTabulated(settings, db, context, cmd, seen, now, e);
      case RetryFailed => RetryAsTabulated(settings, db, context, cmd, seen, now, e);
      case Reject => RejectAsTabulated(settings, db, context, cmd, seen, now, e);
      case _ => MovesAsTabulated(settings, db, context, cmd, seen, now, e);
    }
  }

  /** Nothing that the command has read stands in its way. */
  predicate PassesOnReads(settings: Settings, db: Db, context: Context, cmd: Command, snap: CaseRow,
                          approvals: seq<Approval>, seen: Option<Attempt>) {
    && R.Refusal(db.(cases := db.cases[cmd.c := snap]), context, cmd).None?
    && (cmd.op.ApproveRefundOf? ==>
          R.ApprovalRefusal(settings, snap, approvals, context.user, cmd.op.amount).None?)
    && (cmd.op.RetryFailed? ==> seen.Some? && seen.value.status == AttemptStatus.Failed && cmd.c in db.attempts)
  }

  /** The user has an approval of the kind on record that the command is about to insert, before it comes to the
      guard of the case. */
  predicate Doubled(settings: Settings, db: Db, context: Context, cmd: Command, approvals: seq<Approval>) {
    && cmd.op.ApproveRefundOf? && (approvals != [] || cmd.op.amount < settings.highValueThreshold)
    && exists b :: b in db.approvals && b.caseId == cmd.c && b.user == context.user
                   && b.kind == if approvals == [] then RefundApproval else HighValueSecond
  }

  lemma OutdatedMoves(db: Db, context: Context, cmd: Command, snap: CaseRow, seen: Option<Attempt>, now: Time,
                      e: EventId)
    requires !cmd.op.ApproveRefundOf? && R.Refusal(db.(cases := db.cases[cmd.c := snap]), context, cmd).None?
    requires cmd.op.RetryFailed? ==> seen.Some? && seen.value.status == AttemptStatus.Failed && cmd.c in db.attempts
    requires cmd.c in db.cases && db.cases[cmd.c].version != snap.version
    ensures GatePasses(context, cmd.op) && CommitPlain(db, context, cmd, snap, seen, now, e) == Err(VersionConflict)
  {
  }

  lemma OutdatedApproval(settings: Settings, db: Db, context: Context, cmd: Command, snap: CaseRow,
                         approvals: seq<Approval>, now: Time, e: EventId)
    requires cmd.op.ApproveRefundOf? && R.Refusal(db.(cases := db.cases[cmd.c := snap]), context, cmd).None?
    requires R.ApprovalRefusal(settings, snap, approvals, context.user, cmd.op.amount).None?
    requires cmd.c in db.cases && db.cases[cmd.c].version != snap.version
    ensures GatePasses(context, cmd.op)
    ensures ApproveRefund(settings, db, context, cmd.c, cmd.expected, cmd.op.amount, snap, approvals, now, e)
         == Err(if Doubled(settings, db, context, cmd, approvals) then UniqueViolation else VersionConflict)
  {
    var c, amount := cmd.c, cmd.op.amount;
    var kind := if approvals == [] then RefundApproval else HighValueSecond;
    ApproveCases(settings, db, context, c, cmd.expected, amount, snap, approvals, now, e);
    ChecksAsTabulated(settings, context, cmd.expected, amount, snap, approvals);
    OutdatedInsert(db, context, c, snap, cmd.expected, amount, kind, now, e);
  }

  lemma OutdatedInsert(db: Db, context: Context, c: CaseId, snap: CaseRow, expected: int, amount: int,
                       kind: ApprovalKind, now: Time, e: EventId)
    requires c in db.cases && db.cases[c].version != snap.version && snap.status == Inspected
    requires expected == snap.version && HasRole(context, {Finance})
    ensures RecordFirstApproval(db, context, c, snap, amount) == Err(VersionConflict)
    ensures InsertAndPlan(db, context, c, snap, expected, amount, kind, now, e)
         == Err(if Unblocked(db, ApprovalBy(context, c, kind, amount)) then VersionConflict else UniqueViolation)
  {
  }

  /** A command that has read an outdated version of the case is always refused: with a version conflict, unless
      it runs into the unique constraint over approvals first. */
  lemma OutdatedReadsAreRefused(settings: Settings, db: Db, context: Context, cmd: Command, snap: CaseRow,
                                approvals: seq<Approval>, seen: Option<Attempt>, now: Time, e: EventId)
    requires cmd.c in db.cases && db.cases[cmd.c].version != snap.version
    requires PassesOnReads(settings, db, context, cmd, snap, approvals, seen)
    ensures Commit(settings, db, context, cmd, snap, approvals, seen, now, e)
         == Err(if Doubled(settings, db, context, cmd, approvals) then UniqueViolation else VersionConflict)
  {
    if cmd.op.ApproveRefundOf? {
      OutdatedApproval(settings, db, context, cmd, snap, approvals, now, e);
    } else {
      OutdatedMoves(db, context, cmd, snap, seen, now, e);
    }
  }

  /* Marks. */

  /** The row read is the one there, or its version is outdated. */
  lemma TransitionAsTabulated(db: Db, c: CaseId, snap: CaseRow, to: ReturnStatus)
    requires CurrentOrOld(db, c, snap) && to in SYSTEM_TARGETS && to in Transitions(snap.status)
    ensures SystemTransition(db, c, snap, to)
         == if db.cases[c] != snap then Err(VersionConflict)
            else Ok(db.(cases := db.cases[c := R.Onward(snap, to)],
                        audit := db.audit + [R.Passage(c, snap, R.Onward(snap, to), None, SystemReturn(to))]))
  {
  }

  lemma EvidenceAsTabulated(a: Attempt, providerRef: string, evidence: Evidence)
    ensures EvidenceAgrees(a, providerRef, evidence) <==> !R.Contradicts(a, providerRef, evidence)
  {
  }

  /** Success evidence is accepted or refused as tabulated. */
  lemma SuccessAsTabulated(db: Db, c: CaseId, seen: Attempt, snap: CaseRow, providerRef: string, evidence: Evidence)
    requires c in db.attempts && CurrentOrOld(db, c, snap)
    ensures MarkSuccess(db, c, seen, snap, providerRef, evidence)
         == R.EvidenceAnswer(db, c, seen, snap, providerRef, evidence)
  {
    EvidenceAsTabulated(seen, providerRef, evidence);
    var db1 := WithAttempt(db, c, ConfirmedAttempt(db.attempts[c], providerRef, evidence));
    if snap.status == RefundPending || Uncertain(snap.status) {
      TransitionAsTabulated(db1, c, snap, Refunded);
    } else {
      assert db.audit + [] == db.audit;
    }
  }

  lemma ManualAsTabulated(db: Db, c: CaseId, snap: CaseRow)
    requires c in db.attempts && CurrentOrOld(db, c, snap)
    ensures MarkManualReconciliationNeeded(db, c, snap) == R.HandOverAnswer(db, c, snap)
  {
    if snap.status == RefundPending || snap.status == RefundUnknown {
      TransitionAsTabulated(db, c, snap, NeedsReconciliation);
    } else {
      assert db.audit + [] == db.audit;
    }
  }

  lemma UnknownAsTabulated(db: Db, c: CaseId)
    requires c in db.attempts
    ensures MarkUnknown(db, c)
         == if !(c in db.cases && db.cases[c].org == db.attempts[c].org) then Err(RuntimeFailure)
            else Ok(R.MadeUnknown(db, c))
  {
    if CaseLoads(db, c) && db.cases[c].status == RefundPending {
      TransitionAsTabulated(WithAttempt(db, c, db.attempts[c].(status := Unknown)), c, db.cases[c], RefundUnknown);
    } else {
      assert db.audit + [] == db.audit;
    }
  }

  lemma FailureAsTabulated(db: Db, c: CaseId)
    requires c in db.attempts
    ensures MarkKnownFailure(db, c)
         == db.(attempts := db.attempts[c := db.attempts[c].(status := AttemptStatus.Failed)],
                audit := db.audit + [R.Entry(c, db.attempts[c], DispatchKnownFailure)])
  {
  }

  /* Evidence. */

  /** What a lookup commits, and what the operator is told, whatever it has read and the provider has
      answered. */
  lemma LookupsAsTabulated(db: Db, c: CaseId, snap: CaseRow, seen: Attempt, observed: Observation)
    requires c in db.attempts && CurrentOrOld(db, c, snap) && !observed.NotAsked?
    ensures Reconcile(db, c, snap, seen, observed) == R.LookupAnswer(db, c, snap, seen, observed)
  {
    ManualAsTabulated(db, c, snap);
    ManualAsTabulated(WithAttempt(db, c, AbsentAttempt(db.attempts[c], seen)), c, snap);
    if observed.Found? {
      SuccessAsTabulated(db, c, seen, snap, observed.row.refundId, R.Quote(observed.row, ""));
    }
  }

  lemma LookupReadsAsTabulated(db: Db, context: Context, c: CaseId)
    ensures BeginReconciliation(db, context, c) == R.LookupReads(db, context, c)
  {
  }

  /** Every webhook, whatever it says, is answered as tabulated. */
  lemma WebhooksAsTabulated(db: Db, p: Payload)
    ensures ProcessWebhook(db, p) == R.WebhookAnswer(db, AttemptByKey(db.attempts, p.key), p)
  {
    var owner := AttemptByKey(db.attempts, p.key);
    if owner.Some? && CaseLoads(db, owner.value) {
      var db1 := db.(receipts := db.receipts[p.eventId := p]);
      SuccessAsTabulated(db1, owner.value, db.attempts[owner.value], db.cases[owner.value], p.refundId,
                         PayloadEvidence(p));
    }
  }

  /* The worker. */

  lemma DelayAsTabulated(attempts: int)
    ensures Backoff(attempts) == R.DelaySeconds(attempts)
  {
    if attempts > 7 {
      DelayGrows(attempts - 1);
    }
  }

  lemma {:induction false} DelayGrows(n: nat)
    requires n >= 6
    ensures Pow2(n) >= 64
  {
    if n > 6 {
      DelayGrows(n - 1);
    } else {
      assert Pow2(6) == 2 * Pow2(5) && Pow2(5) == 2 * Pow2(4) && Pow2(4) == 2 * Pow2(3) && Pow2(3) == 8;
    }
  }

  lemma TimeoutAsTabulated(db: Db, e: EventId)
    requires e in db.events && CaseLoads(db, db.events[e].caseId)
    ensures SettleTimeout(db, e) == Ok(R.TimedOutTables(db, e))
  {
    UnknownAsTabulated(db, db.events[e].caseId);
  }

  lemma RefusalAsTabulated(settings: Settings, db: Db, e: EventId, now: Time)
    requires e in db.events && CaseLoads(db, db.events[e].caseId)
    ensures SettleRefused(settings, db, e, now) == Ok(R.RefusedTables(settings, db, e, now))
  {
    var c := db.events[e].caseId;
    FailureAsTabulated(db, c);
    ManualAsTabulated(MarkKnownFailure(db, c), c, db.cases[c]);
    DelayAsTabulated(db.events[e].attempts);
  }

  /** A reply agrees with the intent, or is a contradiction for a human. */
  lemma RepliesAsTabulated(db: Db, e: EventId, row: ProviderRow)
    requires e in db.events && CaseLoads(db, db.events[e].caseId)
    ensures SettleReply(db, e, row)
         == Ok(if R.Contradicts(db.attempts[db.events[e].caseId], row.refundId, R.Quote(row, ""))
               then R.ContradictedTables(db, e) else R.ConfirmedTables(db, e, row))
  {
    var c := db.events[e].caseId;
    SuccessAsTabulated(db, c, db.attempts[c], db.cases[c], row.refundId, R.Quote(row, ""));
    EvidenceAsTabulated(db.attempts[c], row.refundId, R.Quote(row, ""));
    UnknownAsTabulated(db, c);
    ManualAsTabulated(R.MadeUnknown(db, c), c, R.MadeUnknown(db, c).cases[c]);
  }

  lemma BeginAsTabulated(db: Db, e: EventId)
    requires e in db.events && db.events[e].topic == RefundDispatch && db.events[e].caseId in db.attempts
    ensures BeginDispatch(db, e)
         == Ok((R.Begun(db, e), db.attempts[db.events[e].caseId].status !in {Succeeded, Unknown}))
  {
    assert db.audit + [] == db.audit;
  }

  /** An event of any other topic is dead at once; nothing else is written. */
  lemma OtherTopicsAreDead(db: Db, e: EventId)
    requires e in db.events && db.events[e].topic != RefundDispatch
    ensures BeginDispatch(db, e) == Ok((R.Finished(db, e, EventStatus.Dead), false))
  {
  }

  lemma ClaimAsTabulated(db: Db, e: EventId, now: Time, leaseSeconds: int)
    requires e in db.events
    ensures WithEvent(db, e, Claimed(db.events[e], now, leaseSeconds)) == R.Leased(db, e, now, leaseSeconds)
  {
  }

  /* Steps. */

  lemma CommitAsTabulated(settings: Settings, w: World, t: nat, newEvent: EventId, w': World)
    requires Inv(settings, w) && StepTxnCommit(settings, w, t, newEvent) == Some(w')
    ensures w'.db == R.CommandTables(settings, w, t, newEvent)
  {
    CommittedAs(settings, w, t, newEvent, w');
    CommandsAsTabulated(settings, w.db, w.txns[t].context, w.txns[t].cmd, w.txns[t].seen, w.now, newEvent);
  }

  lemma CommittedAs(settings: Settings, w: World, t: nat, newEvent: EventId, w': World)
    requires Inv(settings, w) && StepTxnCommit(settings, w, t, newEvent) == Some(w')
    ensures t in w.txns
    ensures var r := ExecOn(settings, w.db, w.txns[t].context, w.txns[t].cmd, w.txns[t].seen, w.now, newEvent);
            r.Ok? && r.value.0 == w'.db
  {
    CommandStep(settings, w, t, newEvent, w');
  }

  /** What the operator is told is what has been done: success when the attempt has been confirmed with the
      refund found, absence when an attempt read as unknown has been failed, a human's turn when the attempt
      has been left alone. */
  predicate ToldRight(k: Lookup, told: Resolution, before: Attempt, after: Attempt) {
    match told
    case ConfirmedSuccess =>
      && k.observed.Found?
      && after == before.(status := Succeeded, providerRef := Some(k.observed.row.refundId),
                          evidence := Some(R.Quote(k.observed.row, "")))
    case ConfirmedAbsent =>
      && k.observed.Absent? && k.seen.Some? && k.seen.value.status == Unknown
      && after.status == AttemptStatus.Failed && after == before.(status := after.status, evidence := after.evidence)
      && (after.evidence == Some(LookupNotFound) || k.seen.value.evidence == Some(LookupNotFound))
    case ManualReview => k.observed.Absent? && k.seen.Some? && k.seen.value.status != Unknown && after == before
    case NonTerminal => false
  }

  lemma AnswerToldRight(db: Db, k: Lookup, r: (Db, Resolution))
    requires k.c in db.attempts && k.c in db.cases && k.seen.Some? && !k.observed.NotAsked?
    requires k.observed.Found? ==> k.observed.row.status == PaymentSucceeded
    requires R.LookupAnswer(db, k.c, k.snap, k.seen.value, k.observed) == Ok(r)
    ensures k.c in r.0.attempts && ToldRight(k, r.1, db.attempts[k.c], r.0.attempts[k.c])
  {
  }

  /** Every lookup that commits tells the operator right. */
  lemma OperatorIsToldRight(settings: Settings, w: World, l: nat, w': World) returns (told: Resolution)
    requires Inv(settings, w) && StepLookupCommit(w, l) == Some(w')
    ensures l in w.lookups && w.lookups[l].c in w.db.attempts && w.lookups[l].c in w'.db.attempts
    ensures w.lookups[l].seen.Some? && !w.lookups[l].observed.NotAsked?
    ensures Reconcile(w.db, w.lookups[l].c, w.lookups[l].snap, w.lookups[l].seen.value, w.lookups[l].observed)
         == Ok((w'.db, told))
    ensures ToldRight(w.lookups[l], told, w.db.attempts[w.lookups[l].c], w'.db.attempts[w.lookups[l].c])
  {
    var r := ReconciledAs(w, l, w');
    told := r.1;
    LookupIsCurrentOrOld(settings, w, l);
    FoundSucceeded(settings, w, l);
    ToldAsTabulated(w, l, r);
  }

  lemma ToldAsTabulated(w: World, l: nat, r: (Db, Resolution))
    requires l in w.lookups && w.lookups[l].seen.Some? && !w.lookups[l].observed.NotAsked?
    requires w.lookups[l].c in w.db.attempts && CurrentOrOld(w.db, w.lookups[l].c, w.lookups[l].snap)
    requires w.lookups[l].observed.Found? ==> w.lookups[l].observed.row.status == PaymentSucceeded
    requires Reconcile(w.db, w.lookups[l].c, w.lookups[l].snap, w.lookups[l].seen.value, w.lookups[l].observed) == Ok(r)
    ensures w.lookups[l].c in r.0.attempts
    ensures ToldRight(w.lookups[l], r.1, w.db.attempts[w.lookups[l].c], r.0.attempts[w.lookups[l].c])
  {
    var k := w.lookups[l];
    LookupsAsTabulated(w.db, k.c, k.snap, k.seen.value, k.observed);
    AnswerToldRight(w.db, k, r);
  }

  lemma FoundSucceeded(settings: Settings, w: World, l: nat)
    requires Inv(settings, w) && l in w.lookups
    ensures w.lookups[l].observed.Found? ==> w.lookups[l].observed.row.status == PaymentSucceeded
  {
    var k := w.lookups[l];
    assert LookupOk(CellOf(w.db, k.c), w.refunds, k);
    if k.observed.Found? {
      RowOfAttempt(w, k.c, k.observed.row);
    }
  }

  /** The lookup has been answered with these tables. */
  predicate LookupAnswered(w: World, l: nat, db': Db) {
    && l in w.lookups && w.lookups[l].seen.Some? && !w.lookups[l].observed.NotAsked?
    && w.lookups[l].c in w.db.attempts && w.lookups[l].c in w.db.cases
    && var answer := R.LookupAnswer(w.db, w.lookups[l].c, w.lookups[l].snap, w.lookups[l].seen.value,
                                    w.lookups[l].observed);
       answer.Ok? && answer.value.0 == db'
  }

  lemma LookupCommitAsTabulated(settings: Settings, w: World, l: nat, w': World)
    requires Inv(settings, w) && StepLookupCommit(w, l) == Some(w')
    ensures w'.db == R.LookupTables(w, l) && LookupAnswered(w, l, w'.db)
  {
    var r := ReconciledAs(w, l, w');
    LookupIsCurrentOrOld(settings, w, l);
    ReconciledAsTabulated(w, l, r);
  }

  lemma ReconciledAsTabulated(w: World, l: nat, r: (Db, Resolution))
    requires l in w.lookups && w.lookups[l].seen.Some? && !w.lookups[l].observed.NotAsked?
    requires w.lookups[l].c in w.db.attempts && CurrentOrOld(w.db, w.lookups[l].c, w.lookups[l].snap)
    requires Reconcile(w.db, w.lookups[l].c, w.lookups[l].snap, w.lookups[l].seen.value, w.lookups[l].observed) == Ok(r)
    ensures R.LookupTables(w, l) == r.0 && LookupAnswered(w, l, r.0)
  {
    var k := w.lookups[l];
    LookupsAsTabulated(w.db, k.c, k.snap, k.seen.value, k.observed);
  }

  lemma ReconciledAs(w: World, l: nat, w': World) returns (r: (Db, Resolution))
    requires StepLookupCommit(w, l) == Some(w')
    ensures l in w.lookups && w.lookups[l].seen.Some? && !w.lookups[l].observed.NotAsked?
    ensures w.lookups[l].c in w.db.attempts
    ensures Reconcile(w.db, w.lookups[l].c, w.lookups[l].snap, w.lookups[l].seen.value, w.lookups[l].observed) == Ok(r)
    ensures w'.db == r.0
  {
    var k := w.lookups[l];
    r := Reconcile(w.db, k.c, k.snap, k.seen.value, k.observed).value;
  }

  lemma LookupIsCurrentOrOld(settings: Settings, w: World, l: nat)
    requires LookupsOk(w.db, w.refunds, w.lookups) && l in w.lookups
    ensures CurrentOrOld(w.db, w.lookups[l].c, w.lookups[l].snap)
  {
    assert LookupOk(CellOf(w.db, w.lookups[l].c), w.refunds, w.lookups[l]);
  }

  lemma OwnerOfKey(settings: Settings, db: Db, c: CaseId)
    requires CellsOk(settings, db) && c in db.attempts
    ensures AttemptByKey(db.attempts, RefundV1(c)) == Some(c)
  {
    assert CellOk(settings, c, CellOf(db, c));
    var owner := AttemptByKey(db.attempts, RefundV1(c));
    if owner.Some? {
      assert CellOk(settings, owner.value, CellOf(db, owner.value));
    }
  }

  lemma DeliveryAsTabulated(settings: Settings, w: World, key: ProviderKey, eventId: string, w': World)
    requires Inv(settings, w) && StepWebhook(w, key, eventId) == Some(w')
    ensures w'.db == R.WebhookTables(w, key, eventId)
    ensures key in w.refunds && key.RefundV1? && key.caseId in w.db.attempts
    ensures var answer := R.WebhookAnswer(w.db, Some(key.caseId), PayloadOf(w.refunds[key], key, eventId));
            answer.Ok? && answer.value.0 == w'.db
    ensures w.refunds[key].status == PaymentSucceeded
  {
    var row := w.refunds[key];
    RowOfAttempt(w, key.caseId, row);
    OwnerOfKey(settings, w.db, key.caseId);
    WebhooksAsTabulated(w.db, PayloadOf(row, key, eventId));
  }

  lemma BegunAsTabulated(settings: Settings, w: World, s: nat, w': World)
    requires Inv(settings, w) && StepBegin(w, s) == Some(w')
    ensures w'.db == R.BegunTables(w, s)
  {
    BegunAs(w, s, w');
    AttemptOfEvent(settings, w.db, w.sessions[s].e);
    BeginningAsTabulated(w, s, w'.db);
  }

  lemma BeginningAsTabulated(w: World, s: nat, db': Db)
    requires s in w.sessions && w.sessions[s].e in w.db.events
    requires var event := w.db.events[w.sessions[s].e];
             event.topic == RefundDispatch && event.caseId in w.db.attempts
    requires var e := w.sessions[s].e;
             if w.db.events[e].status != Processing then db' == w.db
             else BeginDispatch(w.db, e).Ok? && db' == BeginDispatch(w.db, e).value.0
    ensures db' == R.BegunTables(w, s)
  {
    BeginAsTabulated(w.db, w.sessions[s].e);
  }

  lemma BegunAs(w: World, s: nat, w': World)
    requires StepBegin(w, s) == Some(w')
    ensures s in w.sessions && w.sessions[s].e in w.db.events
    ensures var e := w.sessions[s].e;
            if w.db.events[e].status != Processing then w'.db == w.db
            else BeginDispatch(w.db, e).Ok? && w'.db == BeginDispatch(w.db, e).value.0
  {
  }

  lemma SettledAsTabulated(settings: Settings, w: World, s: nat, outcome: Outcome, w': World)
    requires CanSettle(settings, w, s) && Settled(settings, w, s, outcome) == Ok(w'.db)
    ensures w'.db == R.SettledTables(settings, w, s, outcome)
  {
    var e := w.sessions[s].e;
    match outcome {
      case TimedOut => TimeoutAsTabulated(w.db, e);
      case RepliedRefused => RefusalAsTabulated(settings, w.db, e, w.now);
      case Replied =>
        RepliesAsTabulated(w.db, e, w.calls[w.sessions[s].stage.call].phase.reply);
        AgreeingReply(w.db.attempts[w.db.events[e].caseId], w.calls[w.sessions[s].stage.call].phase.reply);
    }
  }

  lemma AgreeingReply(a: Attempt, row: ProviderRow)
    requires RowMatches(row, a)
    ensures !R.Contradicts(a, row.refundId, R.Quote(row, ""))
  {
  }

  lemma SettledAs(settings: Settings, w: World, s: nat, outcome: Outcome, w': World)
    requires StepSettle(settings, w, s, outcome) == Some(w')
    ensures WaitsOn(w, s) && Settled(settings, w, s, outcome) == Ok(w'.db)
  {
  }

  lemma SettleAsTabulated(settings: Settings, w: World, s: nat, outcome: Outcome, w': World)
    requires Inv(settings, w) && StepSettle(settings, w, s, outcome) == Some(w')
    ensures w'.db == R.SettledTables(settings, w, s, outcome)
  {
    SettledAs(settings, w, s, outcome, w');
    SettlersCan(settings, w, s);
    SettledAsTabulated(settings, w, s, outcome, w');
  }

  predicate OfWorker(step: Step) {
    step.Claim? || step.Begin? || step.Settle?
  }

  /** The tables are those of the worker's step, each kind of step taken by itself. */
  predicate WorkerTables(settings: Settings, w: World, step: Step, db': Db) {
    match step
    case Claim(_, e) => e in w.db.events && db' == R.Leased(w.db, e, w.now, settings.leaseSeconds)
    case Begin(s) => db' == R.BegunTables(w, s)
    case Settle(s, outcome) => db' == R.SettledTables(settings, w, s, outcome)
    case _ => true
  }

  lemma WorkerAsTabulated(config: Config, w: World, step: Step, w': World)
    requires OfWorker(step) && Inv(config.settings, w) && Next(config, w, step) == Some(w')
    ensures WorkerTables(config.settings, w, step, w'.db)
  {
    match step
    case Claim(s, e) =>
      NextClaims(config, w, s, e, w');
      ClaimAsTabulated(w.db, e, w.now, config.settings.leaseSeconds);
    case Begin(s) =>
      NextBegins(config, w, s, w');
      BegunAsTabulated(config.settings, w, s, w');
    case Settle(s, outcome) =>
      NextSettles(config, w, s, outcome, w');
      SettleAsTabulated(config.settings, w, s, outcome, w');
  }

  lemma CreatedAsTabulated(settings: Settings, w: World, step: Step, w': World)
    requires step.Create? && StepCreate(w, step.context, step.c, step.requested, step.currency) == Some(w')
    ensures w'.db == R.TablesAfter(settings, w, step)
  {
    OpeningsAsTabulated(w.db, step.context, step.c, step.requested, step.currency);
  }

  lemma CommittedAsTabulated(config: Config, w: World, step: Step, w': World)
    requires Commits(step) && Inv(config.settings, w) && Next(config, w, step) == Some(w')
    ensures w'.db == R.TablesAfter(config.settings, w, step)
  {
    if step.Create? {
      NextCreates(config, w, step.context, step.c, step.requested, step.currency, w');
      CreatedAsTabulated(config.settings, w, step, w');
    } else if step.TxnCommit? {
      NextCommits(config, w, step.t, step.newEvent, w');
      CommitAsTabulated(config.settings, w, step.t, step.newEvent, w');
    } else if step.LookupCommit? {
      NextReconciles(config, w, step.l, w');
      LookupCommitAsTabulated(config.settings, w, step.l, w');
    } else {
      NextDelivers(config, w, step.key, step.eventId, w');
      DeliveryAsTabulated(config.settings, w, step.key, step.eventId, w');
    }
  }

  /** Every step of the protocol leaves exactly the tables that the reference gives: each row of each table,
      and each audit row in its place. */
  lemma StepsAsTabulated(config: Config, w: World, step: Step, w': World)
    requires Inv(config.settings, w) && Next(config, w, step) == Some(w')
    ensures w'.db == R.TablesAfter(config.settings, w, step)
  {
    if OfWorker(step) {
      WorkerAsTabulated(config, w, step, w');
    } else if Commits(step) {
      CommittedAsTabulated(config, w, step, w');
    } else {
      OtherTablesUntouched(config, w, step, w');
    }
  }
}
