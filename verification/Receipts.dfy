/** Webhook receipts are kept for ever, so a delivery is processed at most once. */
module Receipts {
  import opened Domain
  import opened Tables
  import opened Refunds
  import opened Returns
  import opened Payments
  import opened Provider
  import opened Confirmation
  import opened Worker
  import opened Protocol
  import opened Guarantees

  /* Only webhooks write receipts. */

  lemma CommitReceipts(settings: Settings, db: Db, context: Context, cmd: Command, snap: CaseRow,
                       approvals: seq<Approval>, seen: Option<Attempt>, now: Time, e: EventId)
    ensures var r := Commit(settings, db, context, cmd, snap, approvals, seen, now, e);
            r.Ok? ==> r.value.0.receipts == db.receipts
  {
    if cmd.op.ApproveRefundOf? {
      ApproveReceipts(settings, db, context, cmd.c, cmd.expected, cmd.op.amount, snap, approvals, now, e);
    } else {
      PlainReceipts(db, context, cmd, snap, seen, now, e);
    }
  }

  lemma PlainReceipts(db: Db, context: Context, cmd: Command, snap: CaseRow, seen: Option<Attempt>, now: Time,
                      e: EventId)
    requires !cmd.op.ApproveRefundOf?
    ensures var r := CommitPlain(db, context, cmd, snap, seen, now, e); r.Ok? ==> r.value.receipts == db.receipts
  {
    if cmd.op.RetryFailed? {
      RetryReceipts(db, context, cmd.c, cmd.expected, snap, seen, now, e);
    }
  }

  lemma RetryReceipts(db: Db, context: Context, c: CaseId, expected: int, snap: CaseRow, seen: Option<Attempt>,
                      now: Time, e: EventId)
    ensures var r := RetryFailedRefund(db, context, c, expected, snap, seen, now, e);
            r.Ok? ==> r.value.receipts == db.receipts
  {
  }

  lemma ApproveReceipts(settings: Settings, db: Db, context: Context, c: CaseId, expected: int, amount: int,
                        snap: CaseRow, approvals: seq<Approval>, now: Time, e: EventId)
    ensures var r := ApproveRefund(settings, db, context, c, expected, amount, snap, approvals, now, e);
            r.Ok? ==> r.value.0.receipts == db.receipts
  {
    var kind := if approvals == [] then RefundApproval else HighValueSecond;
    var db1 := db.(approvals := db.approvals + [ApprovalBy(context, c, kind, amount)]);
    ApproveAndPlanReceipts(db1, context, c, snap, expected, amount, now, e);
    FirstApprovalReceipts(db, context, c, snap, amount);
  }

  lemma ApproveAndPlanReceipts(db: Db, context: Context, c: CaseId, snap: CaseRow, expected: int, amount: int,
                               now: Time, e: EventId)
    ensures var r := ApproveAndPlan(db, context, c, snap, expected, amount, now, e);
            r.Ok? ==> r.value.receipts == db.receipts
  {
  }

  lemma FirstApprovalReceipts(db: Db, context: Context, c: CaseId, snap: CaseRow, amount: int)
    ensures var r := RecordFirstApproval(db, context, c, snap, amount); r.Ok? ==> r.value.receipts == db.receipts
  {
  }

  lemma ManualReceipts(db: Db, c: CaseId, snap: CaseRow)
    requires c in db.attempts
    ensures var r := MarkManualReconciliationNeeded(db, c, snap); r.Ok? ==> r.value.receipts == db.receipts
  {
  }

  lemma SuccessReceipts(db: Db, c: CaseId, seen: Attempt, snap: CaseRow, providerRef: string, evidence: Evidence)
    requires c in db.attempts
    ensures var r := MarkSuccess(db, c, seen, snap, providerRef, evidence); r.Ok? ==> r.value.receipts == db.receipts
  {
  }

  lemma FoundReceipts(db: Db, c: CaseId, snap: CaseRow, seen: Attempt, row: ProviderRow)
    requires c in db.attempts
    ensures var r := Reconcile(db, c, snap, seen, Found(row)); r.Ok? ==> r.value.0.receipts == db.receipts
  {
    SuccessReceipts(db, c, seen, snap, row.refundId, EvidenceOf(row, ""));
    ManualReceipts(db, c, snap);
  }

  lemma AbsentReceipts(db: Db, c: CaseId, snap: CaseRow, seen: Attempt)
    requires c in db.attempts
    ensures var r := Reconcile(db, c, snap, seen, Absent); r.Ok? ==> r.value.0.receipts == db.receipts
  {
    ManualReceipts(db, c, snap);
    ManualReceipts(WithAttempt(db, c, AbsentAttempt(db.attempts[c], seen)), c, snap);
  }

  lemma RefusedReceipts(settings: Settings, db: Db, e: EventId, now: Time)
    requires e in db.events && db.events[e].caseId in db.attempts
    ensures var r := SettleRefused(settings, db, e, now); r.Ok? ==> r.value.receipts == db.receipts
  {
  }

  lemma TimeoutReceipts(db: Db, e: EventId)
    requires e in db.events && db.events[e].caseId in db.attempts
    ensures var r := SettleTimeout(db, e); r.Ok? ==> r.value.receipts == db.receipts
  {
  }

  lemma ReplyReceipts(db: Db, e: EventId, row: ProviderRow)
    requires e in db.events && db.events[e].caseId in db.attempts
    ensures var r := SettleReply(db, e, row); r.Ok? ==> r.value.receipts == db.receipts
  {
  }

  lemma SettledReceipts(settings: Settings, w: World, s: nat, outcome: Outcome)
    requires WaitsOn(w, s)
    ensures var r := Settled(settings, w, s, outcome); r.Ok? ==> r.value.receipts == w.db.receipts
  {
    var e, phase := w.sessions[s].e, w.calls[w.sessions[s].stage.call].phase;
    match outcome {
      case TimedOut => TimeoutReceipts(w.db, e);
      case RepliedRefused => RefusedReceipts(settings, w.db, e, w.now);
      case Replied =>
        if phase.Answered? {
          ReplyReceipts(w.db, e, phase.reply);
        }
    }
  }

  lemma WebhookReceipts(db: Db, p: Payload, r: (Db, bool))
    requires ProcessWebhook(db, p) == Ok(r)
    ensures r.0.receipts == db.receipts[p.eventId := p]
  {
  }

  ghost predicate ReceiptsGrow(db: Db, db': Db) {
    forall id {:trigger id in db'.receipts} :: id in db.receipts ==>
      id in db'.receipts && db'.receipts[id] == db.receipts[id]
  }

  lemma StepReceipts(config: Config, w: World, step: Step, w': World)
    requires Next(config, w, step) == Some(w')
    ensures ReceiptsGrow(w.db, w'.db)
  {
    match step {
      case TxnCommit(t, newEvent) =>
        TxnReceipts(config.settings, w, t, newEvent, w');
      case LookupCommit(l) =>
        LookupReceipts(w, l, w');
      case Settle(s, outcome) => SettledReceipts(config.settings, w, s, outcome);
      case Webhook(key, eventId) =>
        StepWebhookReceipts(w, key, eventId, w');
      case _ =>
        OtherReceipts(config, w, step, w');
    }
  }

  lemma TxnReceipts(settings: Settings, w: World, t: nat, newEvent: EventId, w': World)
    requires StepTxnCommit(settings, w, t, newEvent) == Some(w')
    ensures w'.db.receipts == w.db.receipts
  {
    var txn := w.txns[t];
    CommitReceipts(settings, w.db, txn.context, txn.cmd, txn.snap,
                   if txn.approvals.Some? then txn.approvals.value else [], txn.seen, w.now, newEvent);
  }

  lemma LookupReceipts(w: World, l: nat, w': World)
    requires StepLookupCommit(w, l) == Some(w')
    ensures w'.db.receipts == w.db.receipts
  {
    var k := w.lookups[l];
    match k.observed {
      case Found(row) => FoundReceipts(w.db, k.c, k.snap, k.seen.value, row);
      case Absent => AbsentReceipts(w.db, k.c, k.snap, k.seen.value);
    }
  }

  lemma StepWebhookReceipts(w: World, key: ProviderKey, eventId: string, w': World)
    requires StepWebhook(w, key, eventId) == Some(w')
    ensures ReceiptsGrow(w.db, w'.db)
  {
    var p := PayloadOf(w.refunds[key], key, eventId);
    var r := ProcessWebhook(w.db, p).value;
    WebhookReceipts(w.db, p, r);
    if eventId in w.db.receipts {
      WebhookAgrees(w.db, p, r);
    }
  }

  lemma WebhookAgrees(db: Db, p: Payload, r: (Db, bool))
    requires ProcessWebhook(db, p) == Ok(r) && p.eventId in db.receipts
    ensures db.receipts[p.eventId] == p
  {
  }

  lemma OtherReceipts(config: Config, w: World, step: Step, w': World)
    requires Next(config, w, step) == Some(w')
    requires !step.TxnCommit? && !step.LookupCommit? && !step.Settle? && !step.Webhook?
    ensures w'.db.receipts == w.db.receipts
  {
    match step {
      case Create(context, c, requested, currency) =>
        assert StepCreate(w, context, c, requested, currency) == Some(w');
      case Claim(s, e) => assert StepClaim(config, w, s, e) == Some(w');
      case Begin(s) => BeginReceipts(w, s, w');
      case _ => OtherTablesUntouched(config, w, step, w');
    }
  }

  lemma BeginReceipts(w: World, s: nat, w': World)
    requires StepBegin(w, s) == Some(w')
    ensures w'.db.receipts == w.db.receipts
  {
    BegunReceipts(w.db, w.sessions[s].e);
  }

  lemma BegunReceipts(db: Db, e: EventId)
    requires e in db.events
    ensures var r := BeginDispatch(db, e); r.Ok? ==> r.value.0.receipts == db.receipts
  {
  }

  lemma RunStepReceipts(config: Config, run: Run, j: nat)
    requires IsRun(config, run) && j < |run.steps|
    ensures ReceiptsGrow(run.worlds[j].db, run.worlds[j + 1].db)
  {
    assert Taken(config, run, j);
    StepReceipts(config, run.worlds[j], run.steps[j], run.worlds[j + 1]);
  }

  lemma GrowOneMore(a: Db, b: Db, c: Db)
    requires ReceiptsGrow(a, b) && ReceiptsGrow(b, c)
    ensures ReceiptsGrow(a, c)
  {
    forall id | id in a.receipts ensures id in c.receipts && c.receipts[id] == a.receipts[id] {
      assert id in b.receipts;
    }
  }

  lemma {:induction false} RunReceipts(config: Config, run: Run, i: nat, j: nat)
    requires IsRun(config, run) && i <= j < |run.worlds|
    ensures ReceiptsGrow(run.worlds[i].db, run.worlds[j].db)
    decreases j - i
  {
    var first, last := run.worlds[i].db, run.worlds[j].db;
    if i < j {
      var next := run.worlds[j - 1].db;
      RunReceipts(config, run, i, j - 1);
      RunStepReceipts(config, run, j - 1);
      GrowOneMore(first, next, last);
    }
  }

  /** A webhook accepted anywhere in a run and delivered again, however much later, changes no state
      at all; the same event id with another payload is refused. */
  lemma RedeliveryChangesNothing(config: Config, run: Run, i: nat, j: nat, key: ProviderKey, eventId: string,
                                 q: Payload)
    requires IsRun(config, run) && i < j < |run.worlds|
    requires run.steps[i] == Webhook(key, eventId) && q.eventId == eventId
    ensures key in run.worlds[i].refunds
    ensures var p := PayloadOf(run.worlds[i].refunds[key], key, eventId);
            ProcessWebhook(run.worlds[j].db, q) == if q == p then Ok((run.worlds[j].db, true)) else Err(Conflict)
  {
    var w := run.worlds[i];
    assert Taken(config, run, i);
    var p := PayloadOf(w.refunds[key], key, eventId);
    WebhookReceipts(w.db, p, ProcessWebhook(w.db, p).value);
    RunReceipts(config, run, i + 1, j);
  }
}
