/** The refund attempt step by step: what each step does to it exactly, when a confirmed status is lost,
    how an unknown one is left, and what a failed one says about the provider (level FREE). */
module Attempts {
  import opened Domain
  import opened Tables
  import opened Returns
  import opened Payments
  import opened Provider
  import opened Confirmation
  import opened Worker
  import opened Cells
  import opened Ledger
  import opened Settlement
  import opened Protocol
  import opened Safety
  import opened Guarantees
  import opened Exclusive
  import opened Leases
  import opened NoBlindRetry

  /** Session `s` works on an event of case `c`. */
  predicate WorksOn(w: World, s: nat, c: CaseId) {
    s in w.sessions && w.sessions[s].e in w.db.events && w.db.events[w.sessions[s].e].caseId == c
  }

  function SettledAttempt(w: World, s: nat, outcome: Outcome, a: Attempt): Attempt
    requires s in w.sessions
  {
    match outcome
    case TimedOut => if a.status == Succeeded then a else a.(status := Unknown)
    case RepliedRefused => a.(status := Failed)
    case Replied =>
      if w.sessions[s].stage.Waiting? && w.sessions[s].stage.call < |w.calls|
         && w.calls[w.sessions[s].stage.call].phase.Answered? then
        var row := w.calls[w.sessions[s].stage.call].phase.reply;
        ConfirmedAttempt(a, row.refundId, EvidenceOf(row, ""))
      else a
  }

  function LookedUpAttempt(k: Lookup, a: Attempt): Attempt {
    match k.observed
    case Found(row) => ConfirmedAttempt(a, row.refundId, EvidenceOf(row, ""))
    case Absent =>
      if k.seen.Some? && k.seen.value.status == Unknown then AbsentAttempt(a, k.seen.value)
      else a
    case NotAsked => a
  }

  /** What a step that is taken makes of the attempt `a` of case `c`. */
  function AttemptAfter(w: World, step: Step, c: CaseId, a: Attempt): Attempt {
    match step
    case TxnCommit(t, _) =>
      if t in w.txns && w.txns[t].cmd.c == c && w.txns[t].cmd.op.RetryFailed? then a.(status := Planned) else a
    case Begin(s) =>
      if WorksOn(w, s, c) && w.db.events[w.sessions[s].e].status == Processing && MayDispatch(a.status)
      then a.(status := Dispatching, dispatchCount := a.dispatchCount + 1) else a
    case Settle(s, outcome) => if WorksOn(w, s, c) then SettledAttempt(w, s, outcome, a) else a
    case Webhook(key, eventId) =>
      if key == RefundV1(c) && key in w.refunds && eventId !in w.db.receipts
      then ConfirmedAttempt(a, w.refunds[key].refundId, EvidenceOf(w.refunds[key], eventId)) else a
    case LookupCommit(l) => if l in w.lookups && w.lookups[l].c == c then LookedUpAttempt(w.lookups[l], a) else a
    case _ => a
  }

  predicate AttemptMoves(w: World, step: Step, w': World, c: CaseId)
    requires c in w.db.attempts
  {
    c in w'.db.attempts && w'.db.attempts[c] == AttemptAfter(w, step, c, w.db.attempts[c])
  }

  /* The steps one by one. */

  lemma SameAttempt(db: Db, db': Db, c0: CaseId, c: CaseId)
    requires OnlyCell(db, db', c0) && c != c0 && c in db.attempts
    ensures c in db'.attempts && db'.attempts[c] == db.attempts[c]
  {
    AttemptElsewhere(db, db', c0, c);
  }

  lemma CommandMoves(settings: Settings, db: Db, context: Context, cmd: Command, seen: Option<Attempt>, now: Time,
                     e: EventId, r: (Db, bool))
    requires CellOk(settings, cmd.c, CellOf(db, cmd.c)) && cmd.c in db.attempts
    requires ExecOn(settings, db, context, cmd, seen, now, e) == Ok(r)
    ensures cmd.c in r.0.attempts
    ensures r.0.attempts[cmd.c] == if cmd.op.RetryFailed? then db.attempts[cmd.c].(status := Planned)
                                   else db.attempts[cmd.c]
  {
    if cmd.op.RetryFailed? {
      RetriedAttempt(db, context, cmd.c, cmd.expected, seen, now, e, r.0);
    } else {
      OtherCommandMoves(settings, db, context, cmd, seen, now, e, r);
    }
  }

  lemma OtherCommandMoves(settings: Settings, db: Db, context: Context, cmd: Command, seen: Option<Attempt>,
                          now: Time, e: EventId, r: (Db, bool))
    requires CellOk(settings, cmd.c, CellOf(db, cmd.c)) && cmd.c in db.attempts && !cmd.op.RetryFailed?
    requires ExecOn(settings, db, context, cmd, seen, now, e) == Ok(r)
    ensures r.0.attempts == db.attempts
  {
    match cmd.op
    case ApproveRefundOf(_) => assert false;
    case Authorize => AuthorizeQuiet(db, context, cmd.c, cmd.expected, r.0);
    case Receive => MoveQuiet(db, context, cmd, Received, ReturnReceived, r.0);
    case Inspect => MoveQuiet(db, context, cmd, Inspected, ReturnInspected, r.0);
    case Reject => MoveQuiet(db, context, cmd, Rejected, ReturnRejected, r.0);
    case MarkReconciled => MoveQuiet(db, context, cmd, Reconciled, ReturnReconciled, r.0);
    case Close => MoveQuiet(db, context, cmd, Closed, ReturnClosed, r.0);
  }

  lemma CommitMoves(settings: Settings, w: World, t: nat, newEvent: EventId, w': World, c: CaseId)
    requires Inv(settings, w) && StepTxnCommit(settings, w, t, newEvent) == Some(w') && c in w.db.attempts
    ensures AttemptMoves(w, TxnCommit(t, newEvent), w', c)
  {
    var txn := w.txns[t];
    CommandStep(settings, w, t, newEvent, w');
    if c == txn.cmd.c {
      assert CellOk(settings, c, CellOf(w.db, c));
      CommandMoves(settings, w.db, txn.context, txn.cmd, txn.seen, w.now, newEvent,
                   ExecOn(settings, w.db, txn.context, txn.cmd, txn.seen, w.now, newEvent).value);
    } else {
      SameAttempt(w.db, w'.db, txn.cmd.c, c);
    }
  }

  lemma BeginMovesAttempt(settings: Settings, w: World, s: nat, w': World, c: CaseId)
    requires Inv(settings, w) && StepBegin(w, s) == Some(w') && c in w.db.attempts
    ensures AttemptMoves(w, Begin(s), w', c)
  {
    if |w'.calls| > |w.calls| {
      DispatchEffect(settings, w, s, w');
      DispatchMoves(w, s, w.db.events[w.sessions[s].e].caseId, w', c);
    } else {
      NoDispatchMoves(settings, w, s, w', c);
    }
  }

  lemma DispatchMoves(w: World, s: nat, c0: CaseId, w': World, c: CaseId)
    requires Dispatched(w, s, c0, w') && MayDispatch(w.db.attempts[c0].status) && c in w.db.attempts
    requires w.db.events[w.sessions[s].e].status == Processing
    ensures AttemptMoves(w, Begin(s), w', c)
  {
    if c == c0 {
      assert CellOf(w'.db, c).attempt.Some?;
    } else {
      SameAttempt(w.db, w'.db, c0, c);
    }
  }

  lemma NoDispatchMoves(settings: Settings, w: World, s: nat, w': World, c: CaseId)
    requires DbInv(settings, w.db) && StepBegin(w, s) == Some(w') && |w'.calls| == |w.calls| && c in w.db.attempts
    ensures AttemptMoves(w, Begin(s), w', c)
  {
    NothingBegun(settings, w, s, w');
  }

  /** A worker that does not dispatch has found its event taken, or the outcome confirmed or unknown. */
  lemma NothingBegun(settings: Settings, w: World, s: nat, w': World)
    requires DbInv(settings, w.db) && StepBegin(w, s) == Some(w') && |w'.calls| == |w.calls|
    ensures s in w.sessions && w.sessions[s].e in w.db.events && w'.db.attempts == w.db.attempts
    ensures var event := w.db.events[w.sessions[s].e];
            event.status == Processing ==>
              event.caseId in w.db.attempts && !MayDispatch(w.db.attempts[event.caseId].status)
  {
    var e := w.sessions[s].e;
    if w.db.events[e].status == Processing {
      SkippedAttempt(w.db, e, w'.db);
      AttemptOfEvent(settings, w.db, e);
    }
  }

  lemma SkippedAttempt(db: Db, e: EventId, db': Db)
    requires e in db.events && BeginDispatch(db, e) == Ok((db', false))
    ensures db'.attempts == db.attempts
    ensures db.events[e].topic == RefundDispatch ==>
              db.events[e].caseId in db.attempts && !MayDispatch(db.attempts[db.events[e].caseId].status)
  {
  }

  lemma SettleMovesAttempt(settings: Settings, w: World, s: nat, outcome: Outcome, w': World, c: CaseId)
    requires CanSettle(settings, w, s) && StepSettle(settings, w, s, outcome) == Some(w') && c in w.db.attempts
    ensures AttemptMoves(w, Settle(s, outcome), w', c)
  {
    SettledMoves(settings, w, s, outcome, w'.db);
    SettledMovesAttempt(w, s, outcome, w', c);
  }

  lemma SettledMovesAttempt(w: World, s: nat, outcome: Outcome, w': World, c: CaseId)
    requires WaitsOn(w, s) && c in w.db.attempts
    requires var c0 := w.db.events[w.sessions[s].e].caseId;
             && OnlyCell(w.db, w'.db, c0)
             && CellOf(w'.db, c0).attempt == Some(SettledAttempt(w, s, outcome, w.db.attempts[c0]))
    ensures AttemptMoves(w, Settle(s, outcome), w', c)
  {
    var c0 := w.db.events[w.sessions[s].e].caseId;
    if c != c0 {
      SameAttempt(w.db, w'.db, c0, c);
    }
  }

  lemma SettledMoves(settings: Settings, w: World, s: nat, outcome: Outcome, db': Db)
    requires CanSettle(settings, w, s) && Settled(settings, w, s, outcome) == Ok(db')
    ensures var c := w.db.events[w.sessions[s].e].caseId;
            && OnlyCell(w.db, db', c)
            && CellOf(db', c).attempt == Some(SettledAttempt(w, s, outcome, w.db.attempts[c]))
  {
    var e := w.sessions[s].e;
    match outcome {
      case TimedOut => TimeoutShape(w.db, e, db');
      case RepliedRefused => RefusedShape(settings, w.db, e, w.now, db');
      case Replied => ReplyShape(settings, w.db, e, w.calls[w.sessions[s].stage.call].phase.reply, db');
    }
  }

  lemma WebhookMoves(settings: Settings, w: World, key: ProviderKey, eventId: string, w': World, c: CaseId)
    requires Inv(settings, w) && StepWebhook(w, key, eventId) == Some(w') && c in w.db.attempts
    ensures AttemptMoves(w, Webhook(key, eventId), w', c)
  {
    var r := DeliveryTaken(w, key, eventId, w');
    StoredRowFits(settings, w, key);
    DeliveryMoves(settings, w.db, w.refunds[key], key.caseId, eventId, r);
    DeliveredMoves(w, key, eventId, w', c);
  }

  lemma DeliveredMoves(w: World, key: ProviderKey, eventId: string, w': World, c: CaseId)
    requires key in w.refunds && key.RefundV1? && c in w.db.attempts && key.caseId in w.db.attempts
    requires OnlyCell(w.db, w'.db, key.caseId) && key.caseId in w'.db.attempts
    requires w'.db.attempts[key.caseId]
          == AttemptAfter(w, Webhook(key, eventId), key.caseId, w.db.attempts[key.caseId])
    ensures AttemptMoves(w, Webhook(key, eventId), w', c)
  {
    if c != key.caseId {
      SameAttempt(w.db, w'.db, key.caseId, c);
    }
  }

  lemma StoredRowFits(settings: Settings, w: World, key: ProviderKey)
    requires NetworkInv(w) && key in w.refunds
    ensures key.RefundV1? && key.caseId in w.db.attempts && RowMatches(w.refunds[key], w.db.attempts[key.caseId])
  {
    RowOfAttempt(w, key.caseId, w.refunds[key]);
  }

  lemma DeliveryTaken(w: World, key: ProviderKey, eventId: string, w': World) returns (r: (Db, bool))
    requires StepWebhook(w, key, eventId) == Some(w')
    ensures key in w.refunds && ProcessWebhook(w.db, PayloadOf(w.refunds[key], key, eventId)) == Ok(r) && w'.db == r.0
  {
    r := ProcessWebhook(w.db, PayloadOf(w.refunds[key], key, eventId)).value;
  }

  lemma DeliveryMoves(settings: Settings, db: Db, row: ProviderRow, c: CaseId, eventId: string, r: (Db, bool))
    requires CellsOk(settings, db) && c in db.attempts && RowMatches(row, db.attempts[c])
    requires ProcessWebhook(db, PayloadOf(row, RefundV1(c), eventId)) == Ok(r)
    ensures OnlyCell(db, r.0, c) && c in r.0.attempts
    ensures r.0.attempts[c] == if eventId in db.receipts then db.attempts[c]
                               else ConfirmedAttempt(db.attempts[c], row.refundId, EvidenceOf(row, eventId))
  {
    WebhookEffect(settings, db, row, c, eventId, r);
    ReplayedExactly(db, PayloadOf(row, RefundV1(c), eventId), r);
    assert CellOf(r.0, c).attempt.Some?;
  }

  lemma ReplayedExactly(db: Db, p: Payload, r: (Db, bool))
    requires ProcessWebhook(db, p) == Ok(r)
    ensures r.1 <==> p.eventId in db.receipts
  {
  }

  lemma LookupMoves(w: World, l: nat, w': World)
    requires StepLookupCommit(w, l) == Some(w')
    requires var k := w.lookups[l];
             k.observed.Found? ==> k.observed.row.status == PaymentSucceeded
    ensures AttemptMoves(w, LookupCommit(l), w', w.lookups[l].c)
  {
    var k := w.lookups[l];
    ReconcileMoves(w.db, k, Reconcile(w.db, k.c, k.snap, k.seen.value, k.observed).value);
  }

  lemma ReconcileMoves(db: Db, k: Lookup, r: (Db, Resolution))
    requires k.c in db.attempts && k.seen.Some? && !k.observed.NotAsked?
    requires k.observed.Found? ==> k.observed.row.status == PaymentSucceeded
    requires Reconcile(db, k.c, k.snap, k.seen.value, k.observed) == Ok(r)
    ensures k.c in r.0.attempts && r.0.attempts[k.c] == LookedUpAttempt(k, db.attempts[k.c])
  {
  }

  lemma LookupMovesAttempt(settings: Settings, w: World, l: nat, w': World, c: CaseId)
    requires Inv(settings, w) && StepLookupCommit(w, l) == Some(w') && c in w.db.attempts
    ensures AttemptMoves(w, LookupCommit(l), w', c)
  {
    var k := w.lookups[l];
    assert LookupOk(CellOf(w.db, k.c), w.refunds, k);
    if c != k.c {
      LookupCommitStep(settings, w, l, w');
      SameAttempt(w.db, w'.db, k.c, c);
    } else {
      if k.observed.Found? {
        RowOfAttempt(w, k.c, k.observed.row);
      }
      LookupMoves(w, l, w');
    }
  }

  lemma OthersMoveNoAttempt(config: Config, w: World, step: Step, w': World)
    requires !step.TxnCommit? && !step.Begin? && !step.Settle? && !step.Webhook? && !step.LookupCommit?
    requires Next(config, w, step) == Some(w')
    ensures w'.db.attempts == w.db.attempts
  {
    match step {
      case Create(context, c, requested, currency) =>
        assert StepCreate(w, context, c, requested, currency) == Some(w');
      case Claim(s, e) => assert StepClaim(config, w, s, e) == Some(w');
      case _ => OtherTablesUntouched(config, w, step, w');
    }
  }

  lemma WorkerMovesAttempt(config: Config, w: World, step: Step, w': World, c: CaseId)
    requires step.Begin? || step.Settle?
    requires Inv(config.settings, w) && Next(config, w, step) == Some(w') && c in w.db.attempts
    ensures AttemptMoves(w, step, w', c)
  {
    if step.Begin? {
      NextBegins(config, w, step.s, w');
      BeginMovesAttempt(config.settings, w, step.s, w', c);
    } else {
      NextSettles(config, w, step.s, step.outcome, w');
      SettledStepMoves(config.settings, w, step.s, step.outcome, w', c);
    }
  }

  lemma SettledStepMoves(settings: Settings, w: World, s: nat, outcome: Outcome, w': World, c: CaseId)
    requires Inv(settings, w) && StepSettle(settings, w, s, outcome) == Some(w') && c in w.db.attempts
    ensures AttemptMoves(w, Settle(s, outcome), w', c)
  {
    SettlersCan(settings, w, s);
    SettleMovesAttempt(settings, w, s, outcome, w', c);
  }

  lemma EvidenceMovesAttempt(config: Config, w: World, step: Step, w': World, c: CaseId)
    requires step.Webhook? || step.LookupCommit?
    requires Inv(config.settings, w) && Next(config, w, step) == Some(w') && c in w.db.attempts
    ensures AttemptMoves(w, step, w', c)
  {
    if step.Webhook? {
      NextDelivers(config, w, step.key, step.eventId, w');
      WebhookMoves(config.settings, w, step.key, step.eventId, w', c);
    } else {
      NextReconciles(config, w, step.l, w');
      LookupMovesAttempt(config.settings, w, step.l, w', c);
    }
  }

  /** Every step makes of every attempt exactly what `AttemptAfter` says. */
  lemma StepMovesAttempt(config: Config, w: World, step: Step, w': World, c: CaseId)
    requires Inv(config.settings, w) && Next(config, w, step) == Some(w') && c in w.db.attempts
    ensures c in w'.db.attempts && w'.db.attempts[c] == AttemptAfter(w, step, c, w.db.attempts[c])
  {
    if step.Begin? || step.Settle? {
      WorkerMovesAttempt(config, w, step, w', c);
    } else if step.Webhook? || step.LookupCommit? {
      EvidenceMovesAttempt(config, w, step, w', c);
    } else if step.TxnCommit? {
      NextCommits(config, w, step.t, step.newEvent, w');
      CommitMoves(config.settings, w, step.t, step.newEvent, w', c);
    } else {
      OthersMoveNoAttempt(config, w, step, w');
    }
  }

  /* When a confirmed status is lost. */

  /** The step settles a refused call of case `c`. */
  predicate RefusesFor(w: World, step: Step, c: CaseId) {
    step.Settle? && step.outcome == RepliedRefused && WorksOn(w, step.s, c)
  }

  /** The step commits a lookup of case `c` that had seen the attempt as unknown and found no refund. */
  predicate FindsNothing(w: World, step: Step, c: CaseId) {
    && step.LookupCommit? && step.l in w.lookups && w.lookups[step.l].c == c
    && w.lookups[step.l].observed.Absent?
    && w.lookups[step.l].seen.Some? && w.lookups[step.l].seen.value.status == Unknown
  }

  /** The step commits a retry of case `c` by someone who may authorise it and has read a failed attempt. */
  predicate RetriesFor(w: World, step: Step, c: CaseId) {
    && CommitsRetry(w, step, c)
    && w.txns[step.t].seen.Some? && w.txns[step.t].seen.value.status == AttemptStatus.Failed
  }

  lemma RetryCommits(settings: Settings, w: World, step: Step, w': World, c: CaseId)
    requires step.TxnCommit? && Inv(settings, w) && StepTxnCommit(settings, w, step.t, step.newEvent) == Some(w')
    requires w.txns[step.t].cmd.c == c && w.txns[step.t].cmd.op.RetryFailed?
    ensures RetriesFor(w, step, c)
    ensures c in w.db.cases && w.db.cases[c].status == NeedsReconciliation
  {
    var txn := w.txns[step.t];
    CommandStep(settings, w, step.t, step.newEvent, w');
    RetryReads(settings, w.db, txn.context, txn.cmd, txn.seen, w.now, step.newEvent);
  }

  lemma RetryReads(settings: Settings, db: Db, context: Context, cmd: Command, seen: Option<Attempt>, now: Time,
                   e: EventId)
    requires cmd.op.RetryFailed? && ExecOn(settings, db, context, cmd, seen, now, e).Ok?
    ensures seen.Some? && seen.value.status == AttemptStatus.Failed && context.role in {Finance, Admin}
    ensures cmd.c in db.cases && db.cases[cmd.c].status == NeedsReconciliation
  {
  }

  lemma NothingFound(settings: Settings, w: World, l: nat, w': World)
    requires Inv(settings, w) && StepLookupCommit(w, l) == Some(w') && FindsNothing(w, LookupCommit(l), w.lookups[l].c)
    ensures var k := w.lookups[l];
            Uncertain(k.snap.status) && (k.snap.status == RefundUnknown ==> CaseIs(CellOf(w.db, k.c), RefundUnknown))
  {
    assert LookupOk(CellOf(w.db, w.lookups[l].c), w.refunds, w.lookups[l]);
    LookupEffect(settings, w, l, w');
  }

  /** What a step about case `c` that can be taken has behind it. */
  predicate Grounded(w: World, step: Step, c: CaseId) {
    match step
    case TxnCommit(t, _) =>
      t in w.txns && w.txns[t].cmd.c == c && w.txns[t].cmd.op.RetryFailed? ==>
        RetriesFor(w, step, c) && CaseIs(CellOf(w.db, c), NeedsReconciliation)
    case Settle(s, outcome) =>
      && WaitsOn(w, s)
      && (outcome == Replied ==> w.calls[w.sessions[s].stage.call].phase.Answered?)
      && (outcome == RepliedRefused ==> w.calls[w.sessions[s].stage.call].phase.Refused?)
    case Webhook(key, _) => key in w.refunds
    case LookupCommit(l) =>
      && l in w.lookups && !w.lookups[l].observed.NotAsked? && Uncertain(w.lookups[l].snap.status)
      && (FindsNothing(w, step, c) && w.lookups[l].snap.status == RefundUnknown ==>
            CaseIs(CellOf(w.db, c), RefundUnknown))
      && (w.lookups[l].c == c && c in w.db.attempts ==> EvidenceStays(w.lookups[l], w.db.attempts[c]))
    case _ => true
  }

  lemma StepIsGrounded(config: Config, w: World, step: Step, w': World, c: CaseId)
    requires Inv(config.settings, w) && Next(config, w, step) == Some(w')
    ensures Grounded(w, step, c)
  {
    if step.TxnCommit? {
      NextCommits(config, w, step.t, step.newEvent, w');
      CommitIsGrounded(config.settings, w, step, w', c);
    } else if step.LookupCommit? {
      NextReconciles(config, w, step.l, w');
      LookupIsGrounded(config.settings, w, step.l, w', c);
    } else {
      OtherIsGrounded(config, w, step, w', c);
    }
  }

  lemma OtherIsGrounded(config: Config, w: World, step: Step, w': World, c: CaseId)
    requires !step.TxnCommit? && !step.LookupCommit? && Next(config, w, step) == Some(w')
    ensures Grounded(w, step, c)
  {
    if step.Settle? {
      SettleIsGrounded(config.settings, w, step.s, step.outcome, w');
    }
  }

  lemma CommitIsGrounded(settings: Settings, w: World, step: Step, w': World, c: CaseId)
    requires step.TxnCommit? && Inv(settings, w) && StepTxnCommit(settings, w, step.t, step.newEvent) == Some(w')
    ensures Grounded(w, step, c)
  {
    if w.txns[step.t].cmd.c == c && w.txns[step.t].cmd.op.RetryFailed? {
      RetryCommits(settings, w, step, w', c);
    }
  }

  lemma SettleIsGrounded(settings: Settings, w: World, s: nat, outcome: Outcome, w': World)
    requires StepSettle(settings, w, s, outcome) == Some(w')
    ensures WaitsOn(w, s)
    ensures outcome == Replied ==> w.calls[w.sessions[s].stage.call].phase.Answered?
    ensures outcome == RepliedRefused ==> w.calls[w.sessions[s].stage.call].phase.Refused?
  {
  }

  lemma LookupIsGrounded(settings: Settings, w: World, l: nat, w': World, c: CaseId)
    requires Inv(settings, w) && StepLookupCommit(w, l) == Some(w')
    ensures Grounded(w, LookupCommit(l), c)
  {
    assert LookupOk(CellOf(w.db, w.lookups[l].c), w.refunds, w.lookups[l]);
    if FindsNothing(w, LookupCommit(l), c) {
      NothingFound(settings, w, l, w');
    }
  }

  /** The step undoes a confirmed status: it settles a refusal, or commits a lookup that found nothing for
      an attempt it had seen as unknown and that had read the case while it needed reconciliation. */
  predicate UndoesSuccess(w: World, step: Step, c: CaseId) {
    RefusesFor(w, step, c) || (FindsNothing(w, step, c) && w.lookups[step.l].snap.status == NeedsReconciliation)
  }

  /** Of all steps exactly these two take the status SUCCEEDED from an attempt: the timeout branches look
      at the attempt first, the 503 branch does not; and of two lookups that found nothing, only the one
      that has nothing to move in the case passes without a guard. The first half of `process_event`, which
      looks at the attempt and then writes it, is one step here. */
  lemma SuccessSurvivesExactly(config: Config, w: World, step: Step, w': World, c: CaseId)
    requires Inv(config.settings, w) && Next(config, w, step) == Some(w')
    requires c in w.db.attempts && w.db.attempts[c].status == Succeeded
    ensures c in w'.db.attempts && (w'.db.attempts[c].status != Succeeded <==> UndoesSuccess(w, step, c))
  {
    StepMovesAttempt(config, w, step, w', c);
    StepIsGrounded(config, w, step, w', c);
    assert CellOk(config.settings, c, CellOf(w.db, c));
    SuccessAfter(w, step, c, w.db.attempts[c]);
  }

  lemma SuccessAfter(w: World, step: Step, c: CaseId, a: Attempt)
    requires Grounded(w, step, c) && a.status == Succeeded
    requires CellOf(w.db, c).row.Some? && Final(CellOf(w.db, c).row.value.status)
    ensures AttemptAfter(w, step, c, a).status != Succeeded <==> UndoesSuccess(w, step, c)
  {
  }

  lemma RunSuccess(config: Config, run: Run, i: nat, c: CaseId)
    requires IsRun(config, run) && i < |run.steps| && AttemptIs(CellOf(run.worlds[i].db, c), Succeeded)
    ensures AttemptIs(CellOf(run.worlds[i + 1].db, c), Succeeded) <==> !UndoesSuccess(run.worlds[i], run.steps[i], c)
  {
    RunKeepsInv(config, run, i);
    assert Taken(config, run, i);
    SuccessSurvivesExactly(config, run.worlds[i], run.steps[i], run.worlds[i + 1], c);
  }

  /** Wherever in a run a status SUCCEEDED is lost, one of the two steps has been taken in between. */
  lemma {:induction false} LostSuccessWasUndone(config: Config, run: Run, i: nat, j: nat, c: CaseId) returns (m: nat)
    requires IsRun(config, run) && i <= j < |run.worlds|
    requires AttemptIs(CellOf(run.worlds[i].db, c), Succeeded) && !AttemptIs(CellOf(run.worlds[j].db, c), Succeeded)
    ensures i <= m < j && UndoesSuccess(run.worlds[m], run.steps[m], c)
    ensures AttemptIs(CellOf(run.worlds[m].db, c), Succeeded)
    decreases j - i
  {
    RunSuccess(config, run, i, c);
    if UndoesSuccess(run.worlds[i], run.steps[i], c) {
      m := i;
    } else {
      m := LostSuccessWasUndone(config, run, i + 1, j, c);
    }
  }

  /* How an unknown outcome is left. */

  /** The step brings evidence of success for case `c`. */
  predicate Confirms(w: World, step: Step, c: CaseId) {
    || (step.Settle? && step.outcome == Replied && WorksOn(w, step.s, c))
    || (step.Webhook? && step.key == RefundV1(c) && step.eventId !in w.db.receipts)
    || (step.LookupCommit? && step.l in w.lookups && w.lookups[step.l].c == c && w.lookups[step.l].observed.Found?)
  }

  /** Of all steps exactly these take the status UNKNOWN from an attempt. */
  lemma UnknownIsLeftExactly(config: Config, w: World, step: Step, w': World, c: CaseId)
    requires Inv(config.settings, w) && Next(config, w, step) == Some(w')
    requires c in w.db.attempts && w.db.attempts[c].status == Unknown
    ensures c in w'.db.attempts
    ensures w'.db.attempts[c].status == Succeeded <==> Confirms(w, step, c)
    ensures w'.db.attempts[c].status == AttemptStatus.Failed <==> RefusesFor(w, step, c) || FindsNothing(w, step, c)
    ensures w'.db.attempts[c].status == Planned <==> RetriesFor(w, step, c)
    ensures w'.db.attempts[c].status != Dispatching
  {
    StepMovesAttempt(config, w, step, w', c);
    StepIsGrounded(config, w, step, w', c);
    UnknownBecomes(w, step, c, w.db.attempts[c]);
  }

  lemma UnknownBecomes(w: World, step: Step, c: CaseId, a: Attempt)
    requires Grounded(w, step, c) && a.status == Unknown
    ensures var status := AttemptAfter(w, step, c, a).status;
            && (status == Succeeded <==> Confirms(w, step, c))
            && (status == AttemptStatus.Failed <==> RefusesFor(w, step, c) || FindsNothing(w, step, c))
            && (status == Planned <==> RetriesFor(w, step, c))
            && status != Dispatching
  {
  }
}
