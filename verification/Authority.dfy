/** Who may move a case: every change of status in a run has an author entitled to it (level FREE). */
module Authority {
  import opened Domain
  import opened Tables
  import opened Refunds
  import opened Returns
  import opened Payments
  import opened Provider
  import opened Confirmation
  import opened Worker
  import opened Cells
  import opened Ledger
  import opened Settlement
  import opened Protocol
  import opened Safety
  import opened Guarantees
  import opened Exclusive
  import opened Leases

  /** The roles that may bring a case into `status` by a command; no one else may. A refund becomes
      pending by an approval or a retry, which is for those who may approve it. */
  function Entitled(status: ReturnStatus): set<Role> {
    match RolesByTarget(if status == RefundPending then RefundApproved else status)
    case Some(roles) => roles
    case None => {}
  }

  /** The statuses that only provider evidence, or the lack of it, leads to. */
  predicate ByEvidence(status: ReturnStatus) {
    status.Refunded? || Uncertain(status)
  }

  predicate StatusChanges(db: Db, db': Db, c: CaseId) {
    c in db.cases && c in db'.cases && db'.cases[c].status != db.cases[c].status
  }

  /* Commands. */

  lemma PlainAuthority(db: Db, context: Context, cmd: Command, seen: Option<Attempt>, now: Time, e: EventId, db': Db)
    requires cmd.c in db.cases && !cmd.op.ApproveRefundOf? && GatePasses(context, cmd.op)
    requires CommitPlain(db, context, cmd, db.cases[cmd.c], seen, now, e) == Ok(db')
    ensures cmd.c in db'.cases && context.role in Entitled(db'.cases[cmd.c].status)
  {
    match cmd.op
    case Authorize => AuthorizeQuiet(db, context, cmd.c, cmd.expected, db');
    case Receive => MoveQuiet(db, context, cmd, Received, ReturnReceived, db');
    case Inspect => MoveQuiet(db, context, cmd, Inspected, ReturnInspected, db');
    case Reject => MoveQuiet(db, context, cmd, Rejected, ReturnRejected, db');
    case MarkReconciled => MoveQuiet(db, context, cmd, Reconciled, ReturnReconciled, db');
    case Close => MoveQuiet(db, context, cmd, Closed, ReturnClosed, db');
    case RetryFailed =>
      RetryShape(db, context, cmd.c, cmd.expected, seen, now, e, db');
      assert CellOf(db', cmd.c).row.Some?;
  }

  lemma ApprovalAuthority(settings: Settings, db: Db, context: Context, c: CaseId, expected: int, amount: int,
                          now: Time, e: EventId, r: (Db, bool))
    requires c in db.cases && c !in db.attempts && HasRole(context, {Finance})
    requires ApproveRefund(settings, db, context, c, expected, amount, db.cases[c],
                           RefundApprovals(db.approvals, c), now, e) == Ok(r)
    ensures StatusChanges(db, r.0, c) ==> r.0.cases[c].status == RefundPending
  {
    var approvals := RefundApprovals(db.approvals, c);
    if approvals == [] && amount >= settings.highValueThreshold {
      FirstApprovalShape(db, context, c, amount, r.0);
      assert CellOf(r.0, c).row.Some?;
    } else {
      var kind := if approvals == [] then RefundApproval else HighValueSecond;
      var db1 := InsertApproval(db, ApprovalBy(context, c, kind, amount)).value;
      PlannedCell(db1, context, c, expected, amount, now, e, r.0);
      assert CellOf(r.0, c).row.Some?;
    }
  }

  lemma CommandAuthority(settings: Settings, db: Db, context: Context, cmd: Command, seen: Option<Attempt>, now: Time,
                         e: EventId, r: (Db, bool))
    requires DbInv(settings, db) && ExecOn(settings, db, context, cmd, seen, now, e) == Ok(r)
    ensures cmd.c in db.cases && context.org == db.cases[cmd.c].org
    ensures StatusChanges(db, r.0, cmd.c) ==> context.role in Entitled(r.0.cases[cmd.c].status)
  {
    assert CellOk(settings, cmd.c, CellOf(db, cmd.c));
    if cmd.op.ApproveRefundOf? {
      ApprovalAuthority(settings, db, context, cmd.c, cmd.expected, cmd.op.amount, now, e, r);
    } else {
      PlainAuthority(db, context, cmd, seen, now, e, r.0);
    }
  }

  /* Evidence. */

  lemma SettledBy(settings: Settings, w: World, s: nat, outcome: Outcome, db': Db, c: CaseId)
    requires CanSettle(settings, w, s) && Settled(settings, w, s, outcome) == Ok(db')
    ensures StatusChanges(w.db, db', c) ==> ByEvidence(db'.cases[c].status)
  {
    var e := w.sessions[s].e;
    var d := w.db.events[e].caseId;
    match outcome {
      case TimedOut => TimeoutShape(w.db, e, db');
      case RepliedRefused => RefusedShape(settings, w.db, e, w.now, db');
      case Replied => ReplyShape(settings, w.db, e, w.calls[w.sessions[s].stage.call].phase.reply, db');
    }
    assert CellOf(db', d).row.Some?;
    assert c != d ==> CellOf(db', c) == CellOf(w.db, c);
  }

  lemma LookedUpBy(db: Db, k: Lookup, r: (Db, Resolution), c: CaseId)
    requires k.c in db.attempts && k.seen.Some? && !k.observed.NotAsked? && k.c in db.cases
    requires Reconcile(db, k.c, k.snap, k.seen.value, k.observed) == Ok(r)
    ensures StatusChanges(db, r.0, c) ==> ByEvidence(r.0.cases[c].status)
  {
    ManualBy(db, k.c, k.snap, c);
    ManualBy(WithAttempt(db, k.c, AbsentAttempt(db.attempts[k.c], k.seen.value)), k.c, k.snap, c);
    if k.observed.Found? {
      SuccessBy(db, k.c, k.seen.value, k.snap, k.observed.row.refundId, EvidenceOf(k.observed.row, ""), c);
    }
  }

  lemma ManualBy(db: Db, c: CaseId, snap: CaseRow, d: CaseId)
    requires c in db.attempts
    ensures var r := MarkManualReconciliationNeeded(db, c, snap);
            r.Ok? && StatusChanges(db, r.value, d) ==> ByEvidence(r.value.cases[d].status)
  {
  }

  lemma SuccessBy(db: Db, c: CaseId, seen: Attempt, snap: CaseRow, providerRef: string, evidence: Evidence, d: CaseId)
    requires c in db.attempts
    ensures var r := MarkSuccess(db, c, seen, snap, providerRef, evidence);
            r.Ok? && StatusChanges(db, r.value, d) ==> ByEvidence(r.value.cases[d].status)
  {
  }

  lemma DeliveredBy(settings: Settings, w: World, key: ProviderKey, eventId: string, w': World, c: CaseId)
    requires Inv(settings, w) && StepWebhook(w, key, eventId) == Some(w')
    ensures StatusChanges(w.db, w'.db, c) ==> ByEvidence(w'.db.cases[c].status)
  {
    var row := w.refunds[key];
    RowOfAttempt(w, key.caseId, row);
    WebhookEffect(settings, w.db, row, key.caseId, eventId, ProcessWebhook(w.db, PayloadOf(row, key, eventId)).value);
    assert c != key.caseId ==> CellOf(w'.db, c) == CellOf(w.db, c);
    assert w'.db != w.db ==> CellOf(w'.db, key.caseId).row.Some?;
  }

  /* Steps. */

  /** The author of a change: a command of an entitled user of the case's organization, or evidence. */
  predicate HasAuthor(w: World, step: Step, c: CaseId, after: ReturnStatus)
    requires c in w.db.cases
  {
    if step.TxnCommit? then
      && step.t in w.txns && w.txns[step.t].cmd.c == c
      && w.txns[step.t].context.role in Entitled(after)
      && w.txns[step.t].context.org == w.db.cases[c].org
    else
      (step.Settle? || step.Webhook? || step.LookupCommit?) && ByEvidence(after)
  }

  lemma CommitAuthor(settings: Settings, w: World, t: nat, newEvent: EventId, w': World, c: CaseId)
    requires Inv(settings, w) && StepTxnCommit(settings, w, t, newEvent) == Some(w') && StatusChanges(w.db, w'.db, c)
    ensures HasAuthor(w, TxnCommit(t, newEvent), c, w'.db.cases[c].status)
  {
    CommandStep(settings, w, t, newEvent, w');
    var txn := w.txns[t];
    var r := ExecOn(settings, w.db, txn.context, txn.cmd, txn.seen, w.now, newEvent).value;
    CommandAuthority(settings, w.db, txn.context, txn.cmd, txn.seen, w.now, newEvent, r);
    assert c != txn.cmd.c ==> CellOf(w'.db, c) == CellOf(w.db, c);
  }

  lemma EvidenceAuthor(config: Config, w: World, step: Step, w': World, c: CaseId)
    requires step.Settle? || step.LookupCommit? || step.Webhook?
    requires Inv(config.settings, w) && Next(config, w, step) == Some(w')
    ensures StatusChanges(w.db, w'.db, c) ==> ByEvidence(w'.db.cases[c].status)
  {
    match step {
      case Settle(s, outcome) =>
        SettlersCan(config.settings, w, s);
        SettledBy(config.settings, w, s, outcome, w'.db, c);
      case LookupCommit(l) =>
        var k := w.lookups[l];
        assert LookupOk(CellOf(w.db, k.c), w.refunds, k);
        LookedUpBy(w.db, k, Reconcile(w.db, k.c, k.snap, k.seen.value, k.observed).value, c);
      case Webhook(key, eventId) => DeliveredBy(config.settings, w, key, eventId, w', c);
    }
  }

  lemma OthersKeepCases(config: Config, w: World, step: Step, w': World, c: CaseId)
    requires !step.Settle? && !step.LookupCommit? && !step.Webhook? && !step.TxnCommit?
    requires Inv(config.settings, w) && Next(config, w, step) == Some(w')
    ensures !StatusChanges(w.db, w'.db, c)
  {
    match step {
      case Create(context, d, requested, currency) =>
        NextCreates(config, w, context, d, requested, currency, w');
      case Claim(s, e) => NextClaims(config, w, s, e, w');
      case Begin(s) =>
        NextBegins(config, w, s, w');
        BegunKeepsCases(w, s, w');
      case _ => OtherTablesUntouched(config, w, step, w');
    }
  }

  lemma BegunKeepsCases(w: World, s: nat, w': World)
    requires StepBegin(w, s) == Some(w')
    ensures w'.db.cases == w.db.cases
  {
    BegunCases(w.db, w.sessions[s].e);
  }

  lemma BegunCases(db: Db, e: EventId)
    requires e in db.events
    ensures var r := BeginDispatch(db, e); r.Ok? ==> r.value.0.cases == db.cases
  {
  }

  /** Separation of duties over runs: a case changes status only by a command of a user of its own
      organization whose role is entitled to the new status, or by provider evidence into a status
      that only evidence leads to. */
  lemma EveryChangeHasAnAuthor(config: Config, run: Run, i: nat, c: CaseId)
    requires IsRun(config, run) && i < |run.steps|
    requires StatusChanges(run.worlds[i].db, run.worlds[i + 1].db, c)
    ensures HasAuthor(run.worlds[i], run.steps[i], c, run.worlds[i + 1].db.cases[c].status)
  {
    var w, step, w' := run.worlds[i], run.steps[i], run.worlds[i + 1];
    RunKeepsInv(config, run, i);
    assert Taken(config, run, i);
    if step.TxnCommit? {
      CommitAuthor(config.settings, w, step.t, step.newEvent, w', c);
    } else if step.Settle? || step.LookupCommit? || step.Webhook? {
      EvidenceAuthor(config, w, step, w', c);
    } else {
      OthersKeepCases(config, w, step, w', c);
    }
  }
}
