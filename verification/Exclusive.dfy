/** What holds in addition when a lease is taken over only after its holder has stopped (level
    EXCLUSIVE): one worker per event, one live event per case, and none while a human decides. */
module Exclusive {
  import opened Domain
  import opened Tables
  import opened Outbox
  import opened Refunds
  import opened Returns
  import opened Payments
  import opened Provider
  import opened Confirmation
  import opened Worker
  import opened Cells
  import opened Ledger
  import opened Settlement
  import opened Protocol
  import opened Safety

  /** At most one event per case still has to be worked on. */
  ghost predicate OneLive(events: map<EventId, Event>) {
    forall d, e, c {:trigger LiveEvent(events, d, c), LiveEvent(events, e, c)} ::
      LiveEvent(events, d, c) && LiveEvent(events, e, c) ==> d == e
  }

  predicate IsUncertain(cell: Cell) {
    cell.row.Some? && Uncertain(cell.row.value.status)
  }

  /** While the outcome is with a human, no event is left to dispatch the refund. */
  ghost predicate QuietWhenUncertain(db: Db) {
    forall e, c {:trigger LiveEvent(db.events, e, c)} :: LiveEvent(db.events, e, c) ==> !IsUncertain(CellOf(db, c))
  }

  predicate AttemptIs(cell: Cell, status: AttemptStatus) {
    cell.attempt.Some? && cell.attempt.value.status == status
  }

  predicate CaseIs(cell: Cell, status: ReturnStatus) {
    cell.row.Some? && cell.row.value.status == status
  }

  /** A case that needs reconciliation has a failed attempt; that of an unknown case is unknown, or has
      been marked failed by a lookup that had read the case before. */
  predicate UncertainOk(cell: Cell) {
    && (CaseIs(cell, RefundUnknown) ==> AttemptIs(cell, Unknown) || AttemptIs(cell, Failed))
    && (CaseIs(cell, NeedsReconciliation) ==> AttemptIs(cell, Failed))
  }

  ghost predicate CellsUncertainOk(db: Db) {
    forall c {:trigger CellOf(db, c)} :: UncertainOk(CellOf(db, c))
  }

  ghost predicate ExclDb(db: Db) {
    OneLive(db.events) && QuietWhenUncertain(db) && CellsUncertainOk(db)
  }

  /** Each event has at most one worker, and a worked event is in processing. */
  ghost predicate OneHolder(events: map<EventId, Event>, sessions: map<nat, Session>) {
    && (forall s {:trigger sessions[s]} :: s in sessions ==>
          sessions[s].e in events && events[sessions[s].e].status == Processing)
    && (forall s, t {:trigger sessions[s], sessions[t]} ::
          s in sessions && t in sessions && sessions[s].e == sessions[t].e ==> s == t)
  }

  /** While the case is as the lookup read it, an attempt it did not see as unknown is failed. */
  predicate LookupSaw(cell: Cell, k: Lookup) {
    k.seen.Some? && cell.row == Some(k.snap) && k.snap.status == RefundUnknown && k.seen.value.status != Unknown ==>
      AttemptIs(cell, Failed)
  }

  ghost predicate LookupsSaw(db: Db, lookups: map<nat, Lookup>) {
    forall l {:trigger lookups[l]} :: l in lookups ==> LookupSaw(CellOf(db, lookups[l].c), lookups[l])
  }

  /** What concerns events and workers. */
  ghost predicate OneWorkerEach(w: World) {
    ExclDb(w.db) && OneHolder(w.db.events, w.sessions)
  }

  ghost predicate Excl(w: World) {
    OneWorkerEach(w) && LookupsSaw(w.db, w.lookups)
  }

  lemma InitialExcl()
    ensures Excl(INITIAL)
  {
  }

  /* Lifting. */

  lemma ExclEvent(db: Db, db': Db, c: CaseId, e: EventId)
    requires ExclDb(db) && OnlyCell(db, db', c) && UncertainOk(CellOf(db', c))
    requires e in db.events ==> db.events[e].caseId == c
    requires e in db'.events && db'.events[e].caseId == c
    requires forall d :: d != e ==> (d in db'.events <==> d in db.events)
    requires forall d :: d != e && d in db.events ==> db'.events[d] == db.events[d]
    requires LiveEvent(db.events, e, c) || forall d :: !LiveEvent(db.events, d, c)
    requires IsUncertain(CellOf(db', c)) ==> !LiveStatus(db'.events[e].status)
    ensures ExclDb(db')
  {
    forall d, x | LiveEvent(db'.events, d, x) && d != e ensures LiveEvent(db.events, d, x) && x != c {
      assert LiveEvent(db.events, d, x);
    }
    forall x ensures UncertainOk(CellOf(db', x)) {
      assert UncertainOk(CellOf(db, x));
    }
    forall d, x | LiveEvent(db'.events, d, x) ensures !IsUncertain(CellOf(db', x)) {
      if x != c {
        assert CellOf(db', x) == CellOf(db, x);
      }
    }
  }

  lemma ExclQuiet(db: Db, db': Db, c: CaseId)
    requires ExclDb(db) && OnlyCell(db, db', c) && UncertainOk(CellOf(db', c))
    requires db'.events == db.events
    requires IsUncertain(CellOf(db', c)) ==> IsUncertain(CellOf(db, c))
    ensures ExclDb(db')
  {
    forall x ensures UncertainOk(CellOf(db', x)) {
      assert UncertainOk(CellOf(db, x));
    }
    forall d, x | LiveEvent(db'.events, d, x) ensures !IsUncertain(CellOf(db', x)) {
      assert !IsUncertain(CellOf(db, x));
    }
  }

  /* The commands. */

  /** An event is added for a case only when it has no live one; no command makes a case uncertain. */
  ghost predicate CommandEffect(db: Db, db': Db, c: CaseId, e: EventId) {
    && !IsUncertain(CellOf(db', c))
    && (db'.events == db.events
        || (e !in db.events && e in db'.events && db'.events == db.events[e := db'.events[e]]
            && db'.events[e].caseId == c && db'.events[e].attempts == 0
            && db'.events[e].status == Pending
            && IsPending(CellOf(db', c))
            && (CellOf(db, c).attempt.None? || IsUncertain(CellOf(db, c)))))
  }

  lemma ApprovalEffect(db: Db, context: Context, c: CaseId, kind: ApprovalKind, expected: int, amount: int,
                       now: Time, e: EventId, db1: Db, db': Db)
    requires c in db.cases && c !in db.attempts && db.cases[c].status == Inspected
    requires InsertApproval(db, ApprovalBy(context, c, kind, amount)) == Ok(db1)
    requires ApproveAndPlan(db1, context, c, db.cases[c], expected, amount, now, e) == Ok(db')
    ensures CommandEffect(db, db', c, e)
  {
    PlannedCell(db1, context, c, expected, amount, now, e, db');
  }

  lemma ApproveEffect(settings: Settings, db: Db, context: Context, cmd: Command, now: Time, e: EventId, r: (Db, bool))
    requires cmd.op.ApproveRefundOf? && cmd.c in db.cases && cmd.c !in db.attempts
    requires ApproveRefund(settings, db, context, cmd.c, cmd.expected, cmd.op.amount, db.cases[cmd.c],
                           RefundApprovals(db.approvals, cmd.c), now, e) == Ok(r)
    ensures CommandEffect(db, r.0, cmd.c, e)
  {
    var amount := cmd.op.amount;
    if RefundApprovals(db.approvals, cmd.c) != [] || amount < settings.highValueThreshold {
      var kind := if RefundApprovals(db.approvals, cmd.c) == [] then RefundApproval else HighValueSecond;
      var db1 := InsertApproval(db, ApprovalBy(context, cmd.c, kind, amount)).value;
      ApprovalEffect(db, context, cmd.c, kind, cmd.expected, amount, now, e, db1, r.0);
    }
  }

  lemma RetryEffect(db: Db, context: Context, c: CaseId, expected: int, seen: Option<Attempt>, now: Time, e: EventId,
                    db': Db)
    requires c in db.cases
    requires RetryFailedRefund(db, context, c, expected, db.cases[c], seen, now, e) == Ok(db')
    ensures CommandEffect(db, db', c, e)
  {
    RetryShape(db, context, c, expected, seen, now, e, db');
  }

  lemma PlainEffect(db: Db, context: Context, cmd: Command, seen: Option<Attempt>, now: Time, e: EventId, db': Db)
    requires !cmd.op.ApproveRefundOf? && cmd.c in db.cases
    requires CommitPlain(db, context, cmd, db.cases[cmd.c], seen, now, e) == Ok(db')
    ensures CommandEffect(db, db', cmd.c, e)
  {
    match cmd.op
    case RetryFailed => RetryEffect(db, context, cmd.c, cmd.expected, seen, now, e, db');
    case _ => QuietEffect(db, context, cmd, seen, now, e, db');
  }

  lemma QuietEffect(db: Db, context: Context, cmd: Command, seen: Option<Attempt>, now: Time, e: EventId, db': Db)
    requires !cmd.op.ApproveRefundOf? && !cmd.op.RetryFailed? && cmd.c in db.cases
    requires CommitPlain(db, context, cmd, db.cases[cmd.c], seen, now, e) == Ok(db')
    ensures db'.events == db.events
    ensures cmd.c in db'.cases && !Uncertain(db'.cases[cmd.c].status)
  {
    match cmd.op
    case Authorize => AuthorizeQuiet(db, context, cmd.c, cmd.expected, db');
    case Receive => MoveQuiet(db, context, cmd, Received, ReturnReceived, db');
    case Inspect => MoveQuiet(db, context, cmd, Inspected, ReturnInspected, db');
    case Reject => MoveQuiet(db, context, cmd, Rejected, ReturnRejected, db');
    case MarkReconciled => MoveQuiet(db, context, cmd, Reconciled, ReturnReconciled, db');
    case Close => MoveQuiet(db, context, cmd, Closed, ReturnClosed, db');
  }

  lemma CommandExcl(settings: Settings, db: Db, context: Context, cmd: Command, seen: Option<Attempt>, now: Time,
                    e: EventId, r: (Db, bool))
    requires DbInv(settings, db) && ExclDb(db)
    requires ExecOn(settings, db, context, cmd, seen, now, e) == Ok(r)
    ensures ExclDb(r.0) && CommandEffect(db, r.0, cmd.c, e)
  {
    ExecKeeps(settings, db, context, cmd, seen, now, e, r);
    ExecEffect(settings, db, context, cmd, seen, now, e, r);
    EffectExcl(settings, db, r.0, cmd.c, e);
  }

  lemma ExecEffect(settings: Settings, db: Db, context: Context, cmd: Command, seen: Option<Attempt>, now: Time,
                   e: EventId, r: (Db, bool))
    requires CellOk(settings, cmd.c, CellOf(db, cmd.c))
    requires ExecOn(settings, db, context, cmd, seen, now, e) == Ok(r)
    ensures CommandEffect(db, r.0, cmd.c, e)
  {
    if cmd.op.ApproveRefundOf? {
      ApproveEffect(settings, db, context, cmd, now, e, r);
    } else {
      PlainEffect(db, context, cmd, seen, now, e, r.0);
    }
  }

  lemma EffectExcl(settings: Settings, db: Db, db': Db, c: CaseId, e: EventId)
    requires EventsOk(db) && ExclDb(db) && OnlyCell(db, db', c) && CommandEffect(db, db', c, e)
    ensures ExclDb(db')
  {
    if db'.events == db.events {
      ExclQuiet(db, db', c);
    } else {
      NoLiveBefore(db, c);
      ExclEvent(db, db', c, e);
    }
  }

  lemma NoLiveBefore(db: Db, c: CaseId)
    requires EventsOk(db) && ExclDb(db)
    requires CellOf(db, c).attempt.None? || IsUncertain(CellOf(db, c))
    ensures forall d :: !LiveEvent(db.events, d, c)
  {
    forall d | d in db.events && db.events[d].caseId == c ensures !LiveEvent(db.events, d, c) {
      assert EventOk(CellOf(db, c), db.events[d]);
    }
  }

  /* The worker. */

  /** Event `e` has a worker, so its case is not waiting for a human. */
  lemma WorkedEvent(settings: Settings, w: World, s: nat)
    requires DbInv(settings, w.db) && OneWorkerEach(w) && s in w.sessions
    ensures var e := w.sessions[s].e;
            && e in w.db.events
            && w.db.events[e].caseId in w.db.attempts
            && LiveEvent(w.db.events, e, w.db.events[e].caseId)
            && !IsUncertain(CellOf(w.db, w.db.events[e].caseId))
            && CellOk(settings, w.db.events[e].caseId, CellOf(w.db, w.db.events[e].caseId))
            && CaseLoads(w.db, w.db.events[e].caseId)
  {
    var e := w.sessions[s].e;
    assert LiveEvent(w.db.events, e, w.db.events[e].caseId);
    AttemptOfEvent(settings, w.db, e);
  }

  /** What a worker needs to know of the event it settles. */
  predicate Worked(db: Db, e: EventId) {
    && e in db.events
    && LiveStatus(db.events[e].status)
    && db.events[e].caseId in db.attempts
    && CaseLoads(db, db.events[e].caseId)
    && !Uncertain(db.cases[db.events[e].caseId].status)
  }

  /** The last refusal, a lost reply and a reply all leave a consistent, quiet case. */
  lemma RefusedExcl(settings: Settings, db: Db, e: EventId, now: Time, db': Db)
    requires ExclDb(db) && Worked(db, e)
    requires SettleRefused(settings, db, e, now) == Ok(db')
    ensures ExclDb(db')
    ensures db'.events == db.events[e := RefusedEvent(settings, db.events[e], now)]
  {
    var c := db.events[e].caseId;
    RefusedShape(settings, db, e, now, db');
    assert LiveEvent(db.events, e, c);
    ExclEvent(db, db', c, e);
  }

  lemma TimeoutExcl(db: Db, e: EventId, db': Db)
    requires ExclDb(db) && Worked(db, e)
    requires SettleTimeout(db, e) == Ok(db')
    ensures ExclDb(db')
    ensures db'.events == db.events[e := MarkDone(db.events[e])]
  {
    var c := db.events[e].caseId;
    TimeoutShape(db, e, db');
    assert LiveEvent(db.events, e, c);
    ExclEvent(db, db', c, e);
  }

  lemma ReplyExcl(settings: Settings, db: Db, e: EventId, row: ProviderRow, db': Db)
    requires ExclDb(db) && Worked(db, e)
    requires CellOk(settings, db.events[e].caseId, CellOf(db, db.events[e].caseId))
    requires RowMatches(row, db.attempts[db.events[e].caseId])
    requires SettleReply(db, e, row) == Ok(db')
    ensures ExclDb(db')
    ensures db'.events == db.events[e := MarkDone(db.events[e])]
  {
    var c := db.events[e].caseId;
    ReplyShape(settings, db, e, row, db');
    assert LiveEvent(db.events, e, c);
    ExclEvent(db, db', c, e);
  }

  /** A worker that has settled its event is the only one that held it. */
  lemma HolderLeaves(events: map<EventId, Event>, events': map<EventId, Event>, sessions: map<nat, Session>, s: nat)
    requires OneHolder(events, sessions) && s in sessions
    requires forall d :: d != sessions[s].e && d in events ==> d in events' && events'[d] == events[d]
    ensures OneHolder(events', sessions - {s})
  {
    forall t | t in sessions - {s}
      ensures sessions[t].e in events' && events'[sessions[t].e].status == Processing
    {
      assert sessions[t].e != sessions[s].e;
    }
  }

  lemma SettledExcl(settings: Settings, w: World, s: nat, outcome: Outcome, db': Db)
    requires ExclDb(w.db) && WaitsOn(w, s) && Worked(w.db, w.sessions[s].e)
    requires Settled(settings, w, s, outcome) == Ok(db')
    requires outcome == Replied ==>
               var c := w.db.events[w.sessions[s].e].caseId;
               && CellOk(settings, c, CellOf(w.db, c))
               && RowMatches(w.calls[w.sessions[s].stage.call].phase.reply, w.db.attempts[c])
    ensures ExclDb(db')
    ensures w.sessions[s].e in db'.events
    ensures db'.events == w.db.events[w.sessions[s].e := db'.events[w.sessions[s].e]]
  {
    var e := w.sessions[s].e;
    match outcome
    case TimedOut => TimeoutExcl(w.db, e, db');
    case RepliedRefused => RefusedExcl(settings, w.db, e, w.now, db');
    case Replied => ReplyExcl(settings, w.db, e, w.calls[w.sessions[s].stage.call].phase.reply, db');
  }

  lemma ReplyGiven(settings: Settings, w: World, s: nat)
    requires NetworkInv(w) && WaitsOn(w, s) && w.calls[w.sessions[s].stage.call].phase.Answered?
    ensures RowMatches(w.calls[w.sessions[s].stage.call].phase.reply,
                       w.db.attempts[w.db.events[w.sessions[s].e].caseId])
  {
    var call := w.calls[w.sessions[s].stage.call];
    assert SessionOk(w.db.events, w.calls, w.sessions[s]);
    assert CallOk(w.db.attempts, w.refunds, call);
    RowOfAttempt(w, w.db.events[w.sessions[s].e].caseId, call.phase.reply);
  }

  /** What a worker about to settle can rely on. */
  ghost predicate ReadyToSettle(settings: Settings, w: World, s: nat) {
    && WaitsOn(w, s)
    && Worked(w.db, w.sessions[s].e)
    && var c := w.db.events[w.sessions[s].e].caseId;
       var phase := w.calls[w.sessions[s].stage.call].phase;
       && CellOk(settings, c, CellOf(w.db, c))
       && (phase.Answered? ==> RowMatches(phase.reply, w.db.attempts[c]))
  }

  lemma SettleReady(settings: Settings, w: World, s: nat)
    requires DbInv(settings, w.db) && NetworkInv(w) && OneWorkerEach(w) && WaitsOn(w, s)
    ensures ReadyToSettle(settings, w, s)
  {
    WorkedEvent(settings, w, s);
    if w.calls[w.sessions[s].stage.call].phase.Answered? {
      ReplyGiven(settings, w, s);
    }
  }

  lemma SettleExcl(settings: Settings, w: World, s: nat, outcome: Outcome, w': World)
    requires ReadyToSettle(settings, w, s) && OneWorkerEach(w) && StepSettle(settings, w, s, outcome) == Some(w')
    ensures OneWorkerEach(w')
    ensures var e := w.sessions[s].e; e in w'.db.events && w'.db.events == w.db.events[e := w'.db.events[e]]
  {
    SettledExcl(settings, w, s, outcome, w'.db);
    HolderLeaves(w.db.events, w'.db.events, w.sessions, s);
  }

  lemma ClaimHolder(w: World, s: nat, e: EventId, event: Event)
    requires OneHolder(w.db.events, w.sessions) && s !in w.sessions && e in w.db.events
    requires event.status == Processing && forall x :: !Holds(w, e, x)
    ensures OneHolder(w.db.events[e := event], w.sessions[s := Session(e, ClaimHeld)])
  {
    forall x | x in w.sessions ensures w.sessions[x].e != e {
      assert !Holds(w, e, x);
    }
  }

  lemma ClaimDbExcl(db: Db, e: EventId, event: Event)
    requires ExclDb(db) && e in db.events && LiveStatus(db.events[e].status)
    requires event.caseId == db.events[e].caseId && LiveStatus(event.status)
    ensures ExclDb(WithEvent(db, e, event))
  {
    var c := event.caseId;
    assert LiveEvent(db.events, e, c);
    assert forall d :: CellOf(WithEvent(db, e, event), d) == CellOf(db, d);
    ExclEvent(db, WithEvent(db, e, event), c, e);
  }

  lemma ClaimExcl(config: Config, w: World, s: nat, e: EventId, w': World)
    requires config.exclusive && OneWorkerEach(w) && StepClaim(config, w, s, e) == Some(w')
    ensures OneWorkerEach(w')
  {
    var event := Claimed(w.db.events[e], w.now, config.settings.leaseSeconds);
    ClaimDbExcl(w.db, e, event);
    ClaimHolder(w, s, e, event);
  }

  lemma StillHeld(w: World, s: nat, stage: Stage)
    requires OneHolder(w.db.events, w.sessions) && s in w.sessions
    ensures OneHolder(w.db.events, w.sessions[s := Session(w.sessions[s].e, stage)])
  {
  }

  lemma DispatchedExcl(w: World, s: nat, c: CaseId, w': World)
    requires OneWorkerEach(w) && Dispatched(w, s, c, w') && !IsUncertain(CellOf(w.db, c))
    ensures OneWorkerEach(w')
  {
    ExclQuiet(w.db, w'.db, c);
    StillHeld(w, s, Waiting(|w.calls|));
  }

  lemma DispatchExcl(settings: Settings, w: World, s: nat, w': World)
    requires DbInv(settings, w.db) && OneWorkerEach(w) && StepBegin(w, s) == Some(w') && |w'.calls| > |w.calls|
    ensures OneWorkerEach(w')
  {
    var c := w.db.events[w.sessions[s].e].caseId;
    WorkedEvent(settings, w, s);
    DispatchEffect(settings, w, s, w');
    DispatchedExcl(w, s, c, w');
  }

  /** A worker that does not dispatch closes its event and stops. */
  lemma SkipShape(settings: Settings, w: World, s: nat, w': World)
    requires DbInv(settings, w.db) && StepBegin(w, s) == Some(w') && |w'.calls| == |w.calls|
    requires w.sessions[s].e in w.db.events && w.db.events[w.sessions[s].e].status == Processing
    ensures var e := w.sessions[s].e;
            w' == w.(db := WithEvent(w.db, e, MarkDone(w.db.events[e])), sessions := w.sessions - {s})
  {
    SkipKeeps(settings, w.db, w.sessions[s].e, w'.db);
  }

  lemma SkippedExcl(db: Db, e: EventId)
    requires ExclDb(db) && e in db.events && LiveStatus(db.events[e].status)
    requires CellOf(db, db.events[e].caseId).row.Some?
    ensures ExclDb(WithEvent(db, e, MarkDone(db.events[e])))
  {
    var c := db.events[e].caseId;
    var db' := WithEvent(db, e, MarkDone(db.events[e]));
    assert LiveEvent(db.events, e, c);
    assert forall d :: CellOf(db', d) == CellOf(db, d);
    ExclEvent(db, db', c, e);
  }

  lemma SkipExcl(settings: Settings, w: World, s: nat, w': World)
    requires DbInv(settings, w.db) && OneWorkerEach(w) && StepBegin(w, s) == Some(w') && |w'.calls| == |w.calls|
    ensures OneWorkerEach(w')
  {
    WorkedEvent(settings, w, s);
    SkipShape(settings, w, s, w');
    SkippedWorker(w, s, w');
  }

  lemma SkippedWorker(w: World, s: nat, w': World)
    requires OneWorkerEach(w) && s in w.sessions && w.sessions[s].e in w.db.events
    requires CellOf(w.db, w.db.events[w.sessions[s].e].caseId).row.Some?
    requires var e := w.sessions[s].e;
             w' == w.(db := WithEvent(w.db, e, MarkDone(w.db.events[e])), sessions := w.sessions - {s})
    ensures OneWorkerEach(w')
  {
    SkippedExcl(w.db, w.sessions[s].e);
    HolderLeaves(w.db.events, w'.db.events, w.sessions, s);
  }

  /* Confirmations. */

  /** A webhook that is not a replay leaves a final case. */
  lemma WebhookEffect(settings: Settings, db: Db, row: ProviderRow, c: CaseId, eventId: string, r: (Db, bool))
    requires CellsOk(settings, db) && c in db.attempts && RowMatches(row, db.attempts[c])
    requires ProcessWebhook(db, PayloadOf(row, RefundV1(c), eventId)) == Ok(r)
    ensures r.0.events == db.events
    ensures OnlyCell(db, r.0, c) && (r.1 ==> r.0 == db)
    ensures !r.1 ==> && CellOf(r.0, c) == SuccessCell(CellOf(db, c), db.cases[c], row.refundId,
                                                      PayloadEvidence(PayloadOf(row, RefundV1(c), eventId)), c)
                     && Final(CellOf(r.0, c).row.value.status)
  {
    var p := PayloadOf(row, RefundV1(c), eventId);
    if !r.1 {
      var d := AttemptByKey(db.attempts, RefundV1(c)).value;
      assert CellOk(settings, d, CellOf(db, d));
      assert d == c;
      var db1 := db.(receipts := db.receipts[eventId := p]);
      assert forall x :: CellOf(db1, x) == CellOf(db, x);
      MarkSuccessCell(db1, c, db1.attempts[c], db1.cases[c], p.refundId, PayloadEvidence(p), r.0);
      SuccessCellOk(settings, c, CellOf(db, c), db.cases[c], p.refundId, PayloadEvidence(p));
      OnlyCellTransitive(db, db1, r.0, c);
    }
  }

  lemma WebhookExcl(settings: Settings, w: World, key: ProviderKey, eventId: string, w': World)
    requires Inv(settings, w) && OneWorkerEach(w) && StepWebhook(w, key, eventId) == Some(w')
    ensures OneWorkerEach(w') && w'.db.events == w.db.events
    ensures key.RefundV1? && OnlyCell(w.db, w'.db, key.caseId)
    ensures w'.db == w.db || (key.caseId in w'.db.cases && Final(w'.db.cases[key.caseId].status))
  {
    var c, row := key.caseId, w.refunds[key];
    RowOfAttempt(w, c, row);
    WebhookEffect(settings, w.db, row, c, eventId, ProcessWebhook(w.db, PayloadOf(row, key, eventId)).value);
    if w'.db != w.db {
      assert !IsUncertain(CellOf(w'.db, c));
      ExclQuiet(w.db, w'.db, c);
    }
  }

  lemma LookupExcl(settings: Settings, w: World, l: nat, w': World)
    requires Inv(settings, w) && Excl(w) && StepLookupCommit(w, l) == Some(w')
    ensures OneWorkerEach(w') && w'.db.events == w.db.events
  {
    var k := w.lookups[l];
    LookupEffect(settings, w, l, w');
    assert UncertainOk(CellOf(w.db, k.c)) && LookupSaw(CellOf(w.db, k.c), k);
    ExclQuiet(w.db, w'.db, k.c);
  }

  /** What the commit of lookup `k` makes of its case. One that found nothing fails an attempt it saw
      as unknown, with or without moving the case; it moves exactly an unknown case still as it was read. */
  predicate LookupDone(k: Lookup, cell: Cell, cell': Cell)
    requires k.seen.Some?
  {
    if k.observed.Found? then cell'.row.Some? && Final(cell'.row.value.status)
    else
      && (if k.seen.value.status == Unknown then AttemptIs(cell', Failed) else cell'.attempt == cell.attempt)
      && (if k.snap.status == RefundUnknown then cell.row == Some(k.snap) && CaseIs(cell', NeedsReconciliation)
          else cell'.row == cell.row)
  }

  lemma ReconcileEffect(settings: Settings, db: Db, k: Lookup, r: (Db, Resolution))
    requires k.c in db.attempts && CurrentOrOld(db, k.c, k.snap) && Uncertain(k.snap.status)
    requires CellOk(settings, k.c, CellOf(db, k.c)) && k.seen.Some? && !k.observed.NotAsked?
    requires k.observed.Found? ==> RowMatches(k.observed.row, db.attempts[k.c])
    requires Reconcile(db, k.c, k.snap, k.seen.value, k.observed) == Ok(r)
    ensures OnlyCell(db, r.0, k.c) && r.0.events == db.events
    ensures LookupDone(k, CellOf(db, k.c), CellOf(r.0, k.c))
  {
    if k.observed.Found? {
      MarkSuccessCell(db, k.c, k.seen.value, k.snap, k.observed.row.refundId, EvidenceOf(k.observed.row, ""), r.0);
    } else if k.seen.value.status == Unknown {
      var a := AbsentAttempt(db.attempts[k.c], k.seen.value);
      AttemptWritten(db, k.c, a);
      MarkManualCell(WithAttempt(db, k.c, a), k.c, k.snap, r.0);
      OnlyCellTransitive(db, WithAttempt(db, k.c, a), r.0, k.c);
    } else {
      MarkManualCell(db, k.c, k.snap, r.0);
    }
  }

  lemma LookupEffect(settings: Settings, w: World, l: nat, w': World)
    requires Inv(settings, w) && StepLookupCommit(w, l) == Some(w')
    ensures w'.db.events == w.db.events
    ensures OnlyCell(w.db, w'.db, w.lookups[l].c)
    ensures LookupDone(w.lookups[l], CellOf(w.db, w.lookups[l].c), CellOf(w'.db, w.lookups[l].c))
  {
    var k := w.lookups[l];
    assert LookupOk(CellOf(w.db, k.c), w.refunds, k);
    assert CellOk(settings, k.c, CellOf(w.db, k.c));
    if k.observed.Found? {
      RowOfAttempt(w, k.c, k.observed.row);
    }
    ReconcileEffect(settings, w.db, k, Reconcile(w.db, k.c, k.snap, k.seen.value, k.observed).value);
  }

  /* What the lookups under way have read. */

  /** Either the row moves on to a new version, or a failed attempt stays failed. */
  predicate UnknownEvolves(before: Cell, after: Cell) {
    CaseIs(after, RefundUnknown) ==>
      && before.row.Some?
      && (after.row.value.version > before.row.value.version
          || (after.row == before.row && (AttemptIs(before, Failed) ==> AttemptIs(after, Failed))))
  }

  lemma StillSaw(w: World, db': Db, c: CaseId)
    requires LookupsOk(w.db, w.refunds, w.lookups) && LookupsSaw(w.db, w.lookups)
    requires OnlyCell(w.db, db', c) && UnknownEvolves(CellOf(w.db, c), CellOf(db', c))
    ensures LookupsSaw(db', w.lookups)
  {
    forall l | l in w.lookups ensures LookupSaw(CellOf(db', w.lookups[l].c), w.lookups[l]) {
      var k := w.lookups[l];
      assert LookupOk(CellOf(w.db, k.c), w.refunds, k) && LookupSaw(CellOf(w.db, k.c), k);
      if k.c != c {
        assert CellOf(db', k.c) == CellOf(w.db, k.c);
      }
    }
  }

  lemma SameCellsSaw(db: Db, db': Db, lookups: map<nat, Lookup>)
    requires LookupsSaw(db, lookups) && forall d {:trigger CellOf(db', d)} :: CellOf(db', d) == CellOf(db, d)
    ensures LookupsSaw(db', lookups)
  {
    forall l | l in lookups ensures LookupSaw(CellOf(db', lookups[l].c), lookups[l]) {
      assert LookupSaw(CellOf(db, lookups[l].c), lookups[l]);
    }
  }

  lemma SettleSaw(settings: Settings, w: World, s: nat, outcome: Outcome, w': World)
    requires ReadyToSettle(settings, w, s) && StepSettle(settings, w, s, outcome) == Some(w')
    requires LookupsOk(w.db, w.refunds, w.lookups) && LookupsSaw(w.db, w.lookups)
    ensures LookupsSaw(w'.db, w'.lookups)
  {
    var e := w.sessions[s].e;
    var c := w.db.events[e].caseId;
    match outcome {
      case TimedOut => TimeoutShape(w.db, e, w'.db);
      case RepliedRefused => RefusedShape(settings, w.db, e, w.now, w'.db);
      case Replied => ReplyShape(settings, w.db, e, w.calls[w.sessions[s].stage.call].phase.reply, w'.db);
    }
    StillSaw(w, w'.db, c);
  }

  lemma DispatchSaw(settings: Settings, w: World, s: nat, w': World)
    requires DbInv(settings, w.db) && Excl(w) && StepBegin(w, s) == Some(w') && |w'.calls| > |w.calls|
    requires LookupsOk(w.db, w.refunds, w.lookups)
    ensures LookupsSaw(w'.db, w'.lookups)
  {
    WorkedEvent(settings, w, s);
    DispatchEffect(settings, w, s, w');
    DispatchedSaw(w, s, w.db.events[w.sessions[s].e].caseId, w');
  }

  lemma DispatchedSaw(w: World, s: nat, c: CaseId, w': World)
    requires Dispatched(w, s, c, w') && !IsUncertain(CellOf(w.db, c))
    requires LookupsOk(w.db, w.refunds, w.lookups) && LookupsSaw(w.db, w.lookups)
    ensures LookupsSaw(w'.db, w'.lookups)
  {
    StillSaw(w, w'.db, c);
  }

  lemma SkipSaw(settings: Settings, w: World, s: nat, w': World)
    requires DbInv(settings, w.db) && Excl(w) && StepBegin(w, s) == Some(w') && |w'.calls| == |w.calls|
    ensures LookupsSaw(w'.db, w'.lookups)
  {
    WorkedEvent(settings, w, s);
    SkipShape(settings, w, s, w');
    DoneSaw(w.db, w.sessions[s].e, w.lookups);
  }

  lemma DoneSaw(db: Db, e: EventId, lookups: map<nat, Lookup>)
    requires e in db.events && LookupsSaw(db, lookups)
    ensures LookupsSaw(WithEvent(db, e, MarkDone(db.events[e])), lookups)
  {
    SameCellsSaw(db, WithEvent(db, e, MarkDone(db.events[e])), lookups);
  }

  lemma BeginSaw(settings: Settings, w: World, s: nat, w': World)
    requires Inv(settings, w) && Excl(w) && StepBegin(w, s) == Some(w')
    ensures LookupsSaw(w'.db, w'.lookups)
  {
    if |w'.calls| > |w.calls| {
      DispatchSaw(settings, w, s, w');
    } else {
      SkipSaw(settings, w, s, w');
    }
  }

  lemma WebhookSaw(settings: Settings, w: World, key: ProviderKey, eventId: string, w': World)
    requires Inv(settings, w) && Excl(w) && StepWebhook(w, key, eventId) == Some(w')
    ensures LookupsSaw(w'.db, w'.lookups)
  {
    WebhookExcl(settings, w, key, eventId, w');
    if w'.db != w.db {
      StillSaw(w, w'.db, key.caseId);
    }
  }

  lemma LookupCommitSaw(settings: Settings, w: World, l: nat, w': World)
    requires Inv(settings, w) && Excl(w) && StepLookupCommit(w, l) == Some(w')
    ensures LookupsSaw(w'.db, w'.lookups)
  {
    LookupEffect(settings, w, l, w');
    assert LookupOk(CellOf(w.db, w.lookups[l].c), w.refunds, w.lookups[l]);
    StillSaw(w, w'.db, w.lookups[l].c);
  }

  lemma CommandSaw(settings: Settings, w: World, t: nat, newEvent: EventId, w': World)
    requires Inv(settings, w) && Excl(w) && StepTxnCommit(settings, w, t, newEvent) == Some(w')
    ensures LookupsSaw(w'.db, w'.lookups)
  {
    CommandStep(settings, w, t, newEvent, w');
    CommandStepExcl(settings, w, t, newEvent, w');
    StillSaw(w, w'.db, w.txns[t].cmd.c);
  }

  lemma CreateSaw(settings: Settings, w: World, context: Context, c: CaseId, requested: int, currency: string,
                  w': World)
    requires Inv(settings, w) && Excl(w) && StepCreate(w, context, c, requested, currency) == Some(w')
    ensures LookupsSaw(w'.db, w'.lookups)
  {
    CreatedShape(w.db, context, c, requested, currency, w'.db);
    StillSaw(w, w'.db, c);
  }

  /** Only lookup `l` has changed. */
  lemma OneLookupSaw(w: World, l: nat, w': World)
    requires Excl(w) && l in w'.lookups && w' == w.(lookups := w.lookups[l := w'.lookups[l]])
    requires LookupSaw(CellOf(w.db, w'.lookups[l].c), w'.lookups[l])
    ensures Excl(w')
  {
    forall x | x in w'.lookups ensures LookupSaw(CellOf(w'.db, w'.lookups[x].c), w'.lookups[x]) {
      if x != l {
        assert LookupSaw(CellOf(w.db, w.lookups[x].c), w.lookups[x]);
      }
    }
  }

  lemma ReadCaseSaw(w: World, l: nat, context: Context, c: CaseId, w': World)
    requires Excl(w) && StepLookupReadCase(w, l, context, c) == Some(w')
    ensures Excl(w')
  {
    OneLookupSaw(w, l, w');
  }

  /** A lookup reads the attempt of a case that is, or is no longer, as it has read it. */
  lemma ReadAttemptSaw(w: World, l: nat, w': World)
    requires Excl(w) && StepLookupReadAttempt(w, l) == Some(w')
    ensures Excl(w')
  {
    assert UncertainOk(CellOf(w.db, w.lookups[l].c));
    OneLookupSaw(w, l, w');
  }

  lemma AskSaw(w: World, l: nat, w': World)
    requires Excl(w) && StepLookupAsk(w, l) == Some(w')
    ensures Excl(w')
  {
    assert LookupSaw(CellOf(w.db, w.lookups[l].c), w.lookups[l]);
    OneLookupSaw(w, l, w');
  }

  /* Commands, and steps that leave the tables alone. */

  lemma HoldersKept(events: map<EventId, Event>, events': map<EventId, Event>, sessions: map<nat, Session>)
    requires OneHolder(events, sessions)
    requires forall d :: d in events ==> d in events' && events'[d] == events[d]
    ensures OneHolder(events', sessions)
  {
  }

  lemma CommandStepExcl(settings: Settings, w: World, t: nat, newEvent: EventId, w': World)
    requires Inv(settings, w) && Excl(w) && StepTxnCommit(settings, w, t, newEvent) == Some(w')
    ensures OneWorkerEach(w') && CommandEffect(w.db, w'.db, w.txns[t].cmd.c, newEvent)
  {
    var txn := w.txns[t];
    assert TxnOk(CellOf(w.db, txn.cmd.c), txn);
    CommitIsAtomic(settings, w.db, txn, w.now, newEvent);
    CommandExcl(settings, w.db, txn.context, txn.cmd, txn.seen, w.now, newEvent,
                CommitOf(settings, w.db, txn, w.now, newEvent).value);
    HoldersKept(w.db.events, w'.db.events, w.sessions);
  }

  lemma CreateExcl(settings: Settings, w: World, context: Context, c: CaseId, requested: int, currency: string,
                   w': World)
    requires Inv(settings, w) && Excl(w) && StepCreate(w, context, c, requested, currency) == Some(w')
    ensures OneWorkerEach(w')
  {
    CreateKeeps(settings, w.db, context, c, requested, currency, w'.db);
    ExclQuiet(w.db, w'.db, c);
  }

  lemma FewerReadersExcl(w: World, w': World)
    requires Excl(w) && w'.db == w.db
    requires forall s :: s in w'.sessions ==> s in w.sessions && w'.sessions[s] == w.sessions[s]
    requires forall l :: l in w'.lookups ==> l in w.lookups && w'.lookups[l] == w.lookups[l]
    ensures Excl(w')
  {
  }

  lemma BeginExcl(settings: Settings, w: World, s: nat, w': World)
    requires Inv(settings, w) && Excl(w) && StepBegin(w, s) == Some(w')
    ensures OneWorkerEach(w')
  {
    if |w'.calls| > |w.calls| {
      DispatchExcl(settings, w, s, w');
    } else {
      SkipExcl(settings, w, s, w');
    }
  }

  predicate WorkerStep(step: Step) {
    step.Claim? || step.Begin? || step.Settle?
  }

  predicate EvidenceStep(step: Step) {
    step.LookupReadCase? || step.LookupReadAttempt? || step.LookupAsk? || step.LookupCommit? || step.Webhook?
  }

  lemma WorkerStepExcl(config: Config, w: World, step: Step, w': World)
    requires config.exclusive && WorkerStep(step)
    requires Inv(config.settings, w) && Excl(w) && Next(config, w, step) == Some(w')
    ensures Excl(w')
  {
    match step
    case Claim(s, e) =>
      NextClaims(config, w, s, e, w');
      ClaimStepExcl(config, w, s, e, w');
    case Begin(s) =>
      NextBegins(config, w, s, w');
      BeginStepExcl(config.settings, w, s, w');
    case Settle(s, outcome) =>
      NextSettles(config, w, s, outcome, w');
      SettleStepExcl(config.settings, w, s, outcome, w');
  }

  lemma BeginStepExcl(settings: Settings, w: World, s: nat, w': World)
    requires Inv(settings, w) && Excl(w) && StepBegin(w, s) == Some(w')
    ensures Excl(w')
  {
    BeginExcl(settings, w, s, w');
    BeginSaw(settings, w, s, w');
  }

  lemma ClaimStepExcl(config: Config, w: World, s: nat, e: EventId, w': World)
    requires config.exclusive && Excl(w) && StepClaim(config, w, s, e) == Some(w')
    ensures Excl(w')
  {
    ClaimExcl(config, w, s, e, w');
    SameCellsSaw(w.db, w'.db, w.lookups);
  }

  lemma SettleStepExcl(settings: Settings, w: World, s: nat, outcome: Outcome, w': World)
    requires Inv(settings, w) && Excl(w) && StepSettle(settings, w, s, outcome) == Some(w')
    ensures Excl(w')
  {
    SettleReady(settings, w, s);
    SettleExcl(settings, w, s, outcome, w');
    SettleSaw(settings, w, s, outcome, w');
  }

  lemma EvidenceStepExcl(config: Config, w: World, step: Step, w': World)
    requires EvidenceStep(step)
    requires Inv(config.settings, w) && Excl(w) && Next(config, w, step) == Some(w')
    ensures Excl(w')
  {
    match step
    case LookupReadCase(l, context, c) => ReadCaseSaw(w, l, context, c, w');
    case LookupReadAttempt(l) => ReadAttemptSaw(w, l, w');
    case LookupAsk(l) => AskSaw(w, l, w');
    case LookupCommit(l) =>
      NextReconciles(config, w, l, w');
      LookupExcl(config.settings, w, l, w');
      LookupCommitSaw(config.settings, w, l, w');
    case Webhook(key, eventId) =>
      NextDelivers(config, w, key, eventId, w');
      WebhookExcl(config.settings, w, key, eventId, w');
      WebhookSaw(config.settings, w, key, eventId, w');
  }

  predicate WritingStep(step: Step) {
    step.Create? || step.TxnCommit?
  }

  lemma WritingStepExcl(config: Config, w: World, step: Step, w': World)
    requires WritingStep(step)
    requires Inv(config.settings, w) && Excl(w) && Next(config, w, step) == Some(w')
    ensures Excl(w')
  {
    match step
    case Create(context, c, requested, currency) =>
      NextCreates(config, w, context, c, requested, currency, w');
      CreateExcl(config.settings, w, context, c, requested, currency, w');
      CreateSaw(config.settings, w, context, c, requested, currency, w');
    case TxnCommit(t, newEvent) =>
      NextCommits(config, w, t, newEvent, w');
      CommandStepExcl(config.settings, w, t, newEvent, w');
      CommandSaw(config.settings, w, t, newEvent, w');
  }

  /** Reading, ending early, the clock, the network and the provider leave the tables alone. */
  lemma QuietStepExcl(config: Config, w: World, step: Step, w': World)
    requires !WorkerStep(step) && !EvidenceStep(step) && !WritingStep(step)
    requires Excl(w) && Next(config, w, step) == Some(w')
    ensures Excl(w')
  {
    FewerReadersExcl(w, w');
  }

  /** Every step keeps the stronger invariant at level EXCLUSIVE. */
  lemma StepKeepsExcl(config: Config, w: World, step: Step, w': World)
    requires config.exclusive && Inv(config.settings, w) && Excl(w) && Next(config, w, step) == Some(w')
    ensures Excl(w')
  {
    if WorkerStep(step) {
      WorkerStepExcl(config, w, step, w');
    } else if EvidenceStep(step) {
      EvidenceStepExcl(config, w, step, w');
    } else if WritingStep(step) {
      WritingStepExcl(config, w, step, w');
    } else {
      QuietStepExcl(config, w, step, w');
    }
  }
}
