/** No blind retry (level EXCLUSIVE): between an attempt becoming unknown and its next dispatch,
    the provider has been asked and knew nothing, and finance has authorised the retry. */
module NoBlindRetry {
  import opened Domain
  import opened Tables
  import opened Outbox
  import opened Returns
  import opened Provider
  import opened Confirmation
  import opened Worker
  import opened Cells
  import opened Ledger
  import opened Settlement
  import opened Protocol
  import opened Safety
  import opened Guarantees
  import opened Exclusive

  function Dispatches(cell: Cell): nat {
    if cell.attempt.Some? then cell.attempt.value.dispatchCount else 0
  }

  /** The step commits a retry of case `c` by someone who may authorise it. */
  predicate CommitsRetry(w: World, step: Step, c: CaseId) {
    && step.TxnCommit? && step.t in w.txns
    && w.txns[step.t].cmd.c == c && w.txns[step.t].cmd.op == RetryFailed
    && w.txns[step.t].context.role in {Finance, Admin}
  }

  /** The step commits a lookup of case `c` that found no refund, and the case is the unknown one that
      the lookup has read. */
  predicate CommitsAbsence(w: World, step: Step, c: CaseId) {
    && step.LookupCommit? && step.l in w.lookups
    && w.lookups[step.l].c == c && w.lookups[step.l].observed.Absent?
    && CellOf(w.db, c).row == Some(w.lookups[step.l].snap)
    && w.lookups[step.l].snap.status == RefundUnknown
  }

  /** The step commits a lookup of case `c` that found no refund for an attempt seen as unknown, but that
      had read the case while it needed reconciliation, before a later retry. */
  predicate CommitsOutdatedAbsence(w: World, step: Step, c: CaseId) {
    && step.LookupCommit? && step.l in w.lookups
    && w.lookups[step.l].c == c && w.lookups[step.l].observed.Absent?
    && w.lookups[step.l].seen.Some? && w.lookups[step.l].seen.value.status == Unknown
    && w.lookups[step.l].snap.status == NeedsReconciliation
    && CellOf(w.db, c).row != Some(w.lookups[step.l].snap)
  }

  predicate UnknownTwice(cell: Cell) {
    CaseIs(cell, RefundUnknown) && AttemptIs(cell, Unknown)
  }

  /** What one step can do to a case whose events are `live` before it and `live'` after it; the flags
      tell whether the step commits a retry, or a lookup that found no refund. */
  predicate EventFacts(cell: Cell, cell': Cell, live: bool, live': bool, retry: bool) {
    && (!live && cell.attempt.Some? && live' ==> retry && CaseIs(cell, NeedsReconciliation))
    && (!AttemptIs(cell, Unknown) && AttemptIs(cell', Unknown) ==> live && !live')
    && (Dispatches(cell') > Dispatches(cell) ==> live)
  }

  /** What one step can do to a case whose outcome is uncertain. */
  predicate CaseFacts(cell: Cell, cell': Cell, live: bool, absence: bool, outdated: bool) {
    && (!live && !CaseIs(cell, NeedsReconciliation) && CaseIs(cell', NeedsReconciliation) ==> absence)
    && (!CaseIs(cell, RefundUnknown) && CaseIs(cell', RefundUnknown) ==> AttemptIs(cell', Unknown))
    && (UnknownTwice(cell) && CaseIs(cell', RefundUnknown) && !UnknownTwice(cell') ==> outdated)
  }

  ghost predicate StepFacts(w: World, step: Step, w': World, c: CaseId) {
    var cell, cell' := CellOf(w.db, c), CellOf(w'.db, c);
    var live, live' := HasLiveEvent(w.db.events, c), HasLiveEvent(w'.db.events, c);
    && EventFacts(cell, cell', live, live', CommitsRetry(w, step, c))
    && CaseFacts(cell, cell', live, CommitsAbsence(w, step, c), CommitsOutdatedAbsence(w, step, c))
  }

  /** Nothing of case `c` has changed that the facts speak about. */
  lemma FactsByFrame(w: World, step: Step, w': World, c: CaseId)
    requires CellOf(w'.db, c).attempt == CellOf(w.db, c).attempt
    requires CellOf(w'.db, c).row == CellOf(w.db, c).row
    requires forall e :: LiveEvent(w'.db.events, e, c) ==> LiveEvent(w.db.events, e, c)
    ensures StepFacts(w, step, w', c)
  {
    NoNewLife(w.db.events, w'.db.events, c);
    SameAttemptFacts(CellOf(w.db, c), CellOf(w'.db, c), HasLiveEvent(w.db.events, c), HasLiveEvent(w'.db.events, c),
                     CommitsRetry(w, step, c), CommitsAbsence(w, step, c), CommitsOutdatedAbsence(w, step, c));
  }

  lemma NoNewLife(events: map<EventId, Event>, events': map<EventId, Event>, c: CaseId)
    requires forall e :: LiveEvent(events', e, c) ==> LiveEvent(events, e, c)
    ensures HasLiveEvent(events', c) ==> HasLiveEvent(events, c)
  {
    if HasLiveEvent(events', c) {
      var e :| LiveEvent(events', e, c);
      assert LiveEvent(events, e, c);
    }
  }

  lemma SameAttemptFacts(cell: Cell, cell': Cell, live: bool, live': bool, retry: bool, absence: bool, outdated: bool)
    requires cell'.attempt == cell.attempt && cell'.row == cell.row && (live' ==> live)
    ensures EventFacts(cell, cell', live, live', retry) && CaseFacts(cell, cell', live, absence, outdated)
  {
  }

  lemma FactsElsewhere(w: World, step: Step, w': World, c0: CaseId, e: EventId, c: CaseId)
    requires OnlyCell(w.db, w'.db, c0) && c != c0
    requires e in w'.db.events && w'.db.events == w.db.events[e := w'.db.events[e]]
    requires w'.db.events[e].caseId == c0
    ensures StepFacts(w, step, w', c)
  {
    forall x | LiveEvent(w'.db.events, x, c) ensures LiveEvent(w.db.events, x, c) {
      assert x != e;
    }
    assert CellOf(w'.db, c) == CellOf(w.db, c);
    FactsByFrame(w, step, w', c);
  }

  lemma FactsOtherCell(w: World, step: Step, w': World, c0: CaseId, c: CaseId)
    requires OnlyCell(w.db, w'.db, c0) && c != c0 && w'.db.events == w.db.events
    ensures StepFacts(w, step, w', c)
  {
    assert CellOf(w'.db, c) == CellOf(w.db, c);
    FactsByFrame(w, step, w', c);
  }

  /* The commands. */

  lemma RetryIsTheWayBack(settings: Settings, db: Db, context: Context, cmd: Command, seen: Option<Attempt>, now: Time,
                          e: EventId, r: (Db, bool))
    requires ExecOn(settings, db, context, cmd, seen, now, e) == Ok(r)
    requires Uncertain(db.cases[cmd.c].status)
    ensures cmd.op == RetryFailed && context.role in {Finance, Admin}
    ensures db.cases[cmd.c].status == NeedsReconciliation
  {
  }

  lemma CommandAttempt(settings: Settings, db: Db, context: Context, cmd: Command, seen: Option<Attempt>, now: Time,
                       e: EventId, r: (Db, bool))
    requires CellOk(settings, cmd.c, CellOf(db, cmd.c))
    requires ExecOn(settings, db, context, cmd, seen, now, e) == Ok(r)
    ensures var a, a' := CellOf(db, cmd.c).attempt, CellOf(r.0, cmd.c).attempt;
            a' == a || (a'.Some? && a'.value.status == Planned
                        && a'.value.dispatchCount == (if a.Some? then a.value.dispatchCount else 0))
  {
    if cmd.op.ApproveRefundOf? {
      ApprovalAttempt(settings, db, context, cmd, now, e, r);
    } else {
      PlainAttempt(db, context, cmd, seen, now, e, r.0);
    }
  }

  lemma CommandFacts(settings: Settings, w: World, step: Step, w': World, c: CaseId)
    requires step.TxnCommit? && Inv(settings, w) && Excl(w)
    requires StepTxnCommit(settings, w, step.t, step.newEvent) == Some(w')
    ensures StepFacts(w, step, w', c)
  {
    var txn, e := w.txns[step.t], step.newEvent;
    assert TxnOk(CellOf(w.db, txn.cmd.c), txn);
    CommitIsAtomic(settings, w.db, txn, w.now, e);
    CommandStepExcl(settings, w, step.t, e, w');
    ExecKeeps(settings, w.db, txn.context, txn.cmd, txn.seen, w.now, e,
              CommitOf(settings, w.db, txn, w.now, e).value);
    if c == txn.cmd.c {
      OwnCommandFacts(settings, w, step, w', c, txn);
    } else if w'.db.events == w.db.events {
      FactsOtherCell(w, step, w', txn.cmd.c, c);
    } else {
      FactsElsewhere(w, step, w', txn.cmd.c, e, c);
    }
  }

  lemma OwnCommandFacts(settings: Settings, w: World, step: Step, w': World, c: CaseId, txn: Txn)
    requires step.TxnCommit? && step.t in w.txns && txn == w.txns[step.t] && c == txn.cmd.c
    requires CellOk(settings, c, CellOf(w.db, c))
    requires ExecOn(settings, w.db, txn.context, txn.cmd, txn.seen, w.now, step.newEvent).Ok?
    requires ExecOn(settings, w.db, txn.context, txn.cmd, txn.seen, w.now, step.newEvent).value.0 == w'.db
    requires CommandEffect(w.db, w'.db, c, step.newEvent)
    ensures StepFacts(w, step, w', c)
  {
    var r := ExecOn(settings, w.db, txn.context, txn.cmd, txn.seen, w.now, step.newEvent).value;
    CommandAttempt(settings, w.db, txn.context, txn.cmd, txn.seen, w.now, step.newEvent, r);
    if IsUncertain(CellOf(w.db, c)) {
      RetryIsTheWayBack(settings, w.db, txn.context, txn.cmd, txn.seen, w.now, step.newEvent, r);
    }
  }

  /* The worker. */

  lemma WorkedIsLive(w: World, s: nat)
    requires Excl(w) && s in w.sessions
    ensures w.sessions[s].e in w.db.events
    ensures LiveEvent(w.db.events, w.sessions[s].e, w.db.events[w.sessions[s].e].caseId)
    ensures HasLiveEvent(w.db.events, w.db.events[w.sessions[s].e].caseId)
  {
    assert LiveEvent(w.db.events, w.sessions[s].e, w.db.events[w.sessions[s].e].caseId);
  }

  /** When the one live event of a case is settled, none is left. */
  lemma LastEventSettled(events: map<EventId, Event>, e: EventId, event: Event)
    requires OneLive(events) && LiveEvent(events, e, event.caseId) && !LiveStatus(event.status)
    ensures !HasLiveEvent(events[e := event], event.caseId)
  {
    var events' := events[e := event];
    forall d | d in events' ensures !LiveEvent(events', d, event.caseId) {
      assert d != e && LiveEvent(events', d, event.caseId) ==> LiveEvent(events, d, event.caseId);
    }
  }

  lemma SettleFacts(settings: Settings, w: World, step: Step, w': World, c: CaseId)
    requires step.Settle? && ReadyToSettle(settings, w, step.s) && Excl(w)
    requires StepSettle(settings, w, step.s, step.outcome) == Some(w')
    ensures StepFacts(w, step, w', c)
  {
    var e := w.sessions[step.s].e;
    var c0 := w.db.events[e].caseId;
    WorkedIsLive(w, step.s);
    match step.outcome {
      case TimedOut =>
        TimeoutShape(w.db, e, w'.db);
        LastEventSettled(w.db.events, e, MarkDone(w.db.events[e]));
      case RepliedRefused =>
        RefusedShape(settings, w.db, e, w.now, w'.db);
      case Replied =>
        ReplyShape(settings, w.db, e, w.calls[w.sessions[step.s].stage.call].phase.reply, w'.db);
        LastEventSettled(w.db.events, e, MarkDone(w.db.events[e]));
    }
    if c != c0 {
      FactsElsewhere(w, step, w', c0, e, c);
    }
  }

  lemma ClaimFacts(config: Config, w: World, step: Step, w': World, c: CaseId)
    requires step.Claim? && StepClaim(config, w, step.s, step.e) == Some(w')
    ensures StepFacts(w, step, w', c)
  {
    forall x | LiveEvent(w'.db.events, x, c) ensures LiveEvent(w.db.events, x, c) {
    }
    FactsByFrame(w, step, w', c);
  }

  lemma DispatchedFacts(w: World, step: Step, w': World, c0: CaseId, c: CaseId)
    requires step.Begin? && Dispatched(w, step.s, c0, w') && HasLiveEvent(w.db.events, c0)
    requires !IsUncertain(CellOf(w.db, c0))
    ensures StepFacts(w, step, w', c)
  {
    if c != c0 {
      FactsOtherCell(w, step, w', c0, c);
    }
  }

  lemma BeginFacts(settings: Settings, w: World, step: Step, w': World, c: CaseId)
    requires step.Begin? && DbInv(settings, w.db) && Excl(w) && StepBegin(w, step.s) == Some(w')
    ensures StepFacts(w, step, w', c)
  {
    WorkedIsLive(w, step.s);
    WorkedEvent(settings, w, step.s);
    if |w'.calls| > |w.calls| {
      DispatchEffect(settings, w, step.s, w');
      DispatchedFacts(w, step, w', w.db.events[w.sessions[step.s].e].caseId, c);
    } else {
      SkipFacts(settings, w, step, w', c);
    }
  }

  lemma SkipFacts(settings: Settings, w: World, step: Step, w': World, c: CaseId)
    requires step.Begin? && DbInv(settings, w.db) && OneHolder(w.db.events, w.sessions)
    requires StepBegin(w, step.s) == Some(w') && |w'.calls| == |w.calls|
    ensures StepFacts(w, step, w', c)
  {
    SkipShape(settings, w, step.s, w');
    DoneFacts(w, step, w', w.sessions[step.s].e, c);
  }

  lemma DoneFacts(w: World, step: Step, w': World, e: EventId, c: CaseId)
    requires e in w.db.events && w'.db == WithEvent(w.db, e, MarkDone(w.db.events[e]))
    ensures StepFacts(w, step, w', c)
  {
    FactsByFrame(w, step, w', c);
  }

  /* The evidence. */

  lemma WebhookFacts(settings: Settings, w: World, step: Step, w': World, c: CaseId)
    requires step.Webhook? && Inv(settings, w) && StepWebhook(w, step.key, step.eventId) == Some(w')
    ensures StepFacts(w, step, w', c)
  {
    var c0, row := step.key.caseId, w.refunds[step.key];
    RowOfAttempt(w, c0, row);
    WebhookEffect(settings, w.db, row, c0, step.eventId,
                  ProcessWebhook(w.db, PayloadOf(row, step.key, step.eventId)).value);
    if c != c0 {
      FactsOtherCell(w, step, w', c0, c);
    }
  }

  lemma FoundAttempt(db: Db, k: Lookup, r: (Db, Resolution))
    requires k.c in db.attempts && CurrentOrOld(db, k.c, k.snap) && k.seen.Some? && k.observed.Found?
    requires Reconcile(db, k.c, k.snap, k.seen.value, k.observed) == Ok(r)
    ensures k.c in r.0.attempts && r.0.attempts[k.c].status in {Succeeded, db.attempts[k.c].status}
    ensures r.0.attempts[k.c].dispatchCount == db.attempts[k.c].dispatchCount
  {
  }

  lemma AbsentDispatches(db: Db, k: Lookup, r: (Db, Resolution))
    requires k.c in db.attempts && k.seen.Some? && k.observed.Absent?
    requires Reconcile(db, k.c, k.snap, k.seen.value, k.observed) == Ok(r)
    ensures k.c in r.0.attempts && r.0.attempts[k.c].dispatchCount == db.attempts[k.c].dispatchCount
  {
  }

  lemma LookupFacts(settings: Settings, w: World, step: Step, w': World, c: CaseId)
    requires step.LookupCommit? && Inv(settings, w) && Excl(w) && StepLookupCommit(w, step.l) == Some(w')
    ensures StepFacts(w, step, w', c)
  {
    LookupEffect(settings, w, step.l, w');
    if c != w.lookups[step.l].c {
      FactsOtherCell(w, step, w', w.lookups[step.l].c, c);
    } else {
      OwnLookupFacts(settings, w, step, w', c);
    }
  }

  lemma OwnLookupFacts(settings: Settings, w: World, step: Step, w': World, c: CaseId)
    requires step.LookupCommit? && Inv(settings, w) && StepLookupCommit(w, step.l) == Some(w')
    requires w.lookups[step.l].c == c
    ensures StepFacts(w, step, w', c)
  {
    var k := w.lookups[step.l];
    LookupEffect(settings, w, step.l, w');
    assert LookupOk(CellOf(w.db, k.c), w.refunds, k);
    var r := Reconcile(w.db, k.c, k.snap, k.seen.value, k.observed).value;
    if k.observed.Found? {
      FoundAttempt(w.db, k, r);
      FoundFacts(CellOf(w.db, c), CellOf(w'.db, c), HasLiveEvent(w.db.events, c),
                 CommitsRetry(w, step, c), CommitsAbsence(w, step, c), CommitsOutdatedAbsence(w, step, c));
    } else {
      AbsentDispatches(w.db, k, r);
      AbsentFacts(k, CellOf(w.db, c), CellOf(w'.db, c), HasLiveEvent(w.db.events, c),
                  CommitsRetry(w, step, c), CommitsAbsence(w, step, c), CommitsOutdatedAbsence(w, step, c));
    }
  }

  lemma FoundFacts(cell: Cell, cell': Cell, live: bool, retry: bool, absence: bool, outdated: bool)
    requires cell.attempt.Some? && cell'.attempt.Some?
    requires cell'.attempt.value.status in {Succeeded, cell.attempt.value.status}
    requires cell'.attempt.value.dispatchCount == cell.attempt.value.dispatchCount
    requires cell'.row.Some? && Final(cell'.row.value.status)
    ensures EventFacts(cell, cell', live, live, retry) && CaseFacts(cell, cell', live, absence, outdated)
  {
  }

  lemma AbsentFacts(k: Lookup, cell: Cell, cell': Cell, live: bool, retry: bool, absence: bool, outdated: bool)
    requires k.seen.Some? && !k.observed.Found? && Uncertain(k.snap.status) && LookupDone(k, cell, cell')
    requires Dispatches(cell') == Dispatches(cell)
    requires k.snap.status == RefundUnknown && cell.row == Some(k.snap) ==> absence
    requires k.snap.status == NeedsReconciliation && k.seen.value.status == Unknown && cell.row != Some(k.snap) ==>
               outdated
    ensures EventFacts(cell, cell', live, live, retry) && CaseFacts(cell, cell', live, absence, outdated)
  {
  }

  lemma CreateFacts(settings: Settings, w: World, step: Step, w': World, c: CaseId)
    requires step.Create? && StepCreate(w, step.context, step.c, step.requested, step.currency) == Some(w')
    ensures StepFacts(w, step, w', c)
  {
    if c != step.c {
      FactsByFrame(w, step, w', c);
    } else {
      assert w'.db.events == w.db.events && w'.db.attempts == w.db.attempts;
      assert w'.db.cases[c].status == Requested;
    }
  }

  lemma QuietFacts(config: Config, w: World, step: Step, w': World, c: CaseId)
    requires !WorkerStep(step) && !WritingStep(step) && !step.LookupCommit? && !step.Webhook?
    requires Next(config, w, step) == Some(w')
    ensures StepFacts(w, step, w', c)
  {
    FactsByFrame(w, step, w', c);
  }

  lemma WorkerFacts(config: Config, w: World, step: Step, w': World, c: CaseId)
    requires WorkerStep(step)
    requires Inv(config.settings, w) && Excl(w) && Next(config, w, step) == Some(w')
    ensures StepFacts(w, step, w', c)
  {
    if step.Claim? {
      NextClaims(config, w, step.s, step.e, w');
      ClaimFacts(config, w, step, w', c);
    } else if step.Begin? {
      NextBegins(config, w, step.s, w');
      BeginFacts(config.settings, w, step, w', c);
    } else {
      NextSettles(config, w, step.s, step.outcome, w');
      SettleReady(config.settings, w, step.s);
      SettleFacts(config.settings, w, step, w', c);
    }
  }

  lemma OtherFacts(config: Config, w: World, step: Step, w': World, c: CaseId)
    requires !WorkerStep(step)
    requires Inv(config.settings, w) && Excl(w) && Next(config, w, step) == Some(w')
    ensures StepFacts(w, step, w', c)
  {
    if step.Create? {
      NextCreates(config, w, step.context, step.c, step.requested, step.currency, w');
      CreateFacts(config.settings, w, step, w', c);
    } else if step.TxnCommit? {
      NextCommits(config, w, step.t, step.newEvent, w');
      CommandFacts(config.settings, w, step, w', c);
    } else if step.LookupCommit? {
      NextReconciles(config, w, step.l, w');
      LookupFacts(config.settings, w, step, w', c);
    } else if step.Webhook? {
      NextDelivers(config, w, step.key, step.eventId, w');
      WebhookFacts(config.settings, w, step, w', c);
    } else {
      QuietFacts(config, w, step, w', c);
    }
  }

  /* Runs. */

  lemma {:induction false} RunKeepsExcl(config: Config, run: Run, i: nat)
    requires config.exclusive && IsRun(config, run) && i < |run.worlds|
    ensures Excl(run.worlds[i])
    decreases i
  {
    if i == 0 {
      InitialExcl();
    } else {
      RunKeepsExcl(config, run, i - 1);
      RunKeepsInv(config, run, i - 1);
      assert Taken(config, run, i - 1);
      StepKeepsExcl(config, run.worlds[i - 1], run.steps[i - 1], run.worlds[i]);
    }
  }

  lemma RunFacts(config: Config, run: Run, i: nat, c: CaseId)
    requires config.exclusive && IsRun(config, run) && i < |run.steps|
    ensures StepFacts(run.worlds[i], run.steps[i], run.worlds[i + 1], c)
  {
    RunKeepsInv(config, run, i);
    RunKeepsExcl(config, run, i);
    assert Taken(config, run, i);
    if WorkerStep(run.steps[i]) {
      WorkerFacts(config, run.worlds[i], run.steps[i], run.worlds[i + 1], c);
    } else {
      OtherFacts(config, run.worlds[i], run.steps[i], run.worlds[i + 1], c);
    }
  }

  /** While case `c` has no live event, only an authorised retry gives it one. */
  lemma {:induction false} RetryComesFirst(config: Config, run: Run, n: nat, k: nat, c: CaseId) returns (j: nat)
    requires config.exclusive && IsRun(config, run) && n <= k < |run.worlds|
    requires c in run.worlds[n].db.attempts && !HasLiveEvent(run.worlds[n].db.events, c)
    requires HasLiveEvent(run.worlds[k].db.events, c)
    ensures n <= j < k
    ensures CommitsRetry(run.worlds[j], run.steps[j], c)
    ensures CaseIs(CellOf(run.worlds[j].db, c), NeedsReconciliation)
    ensures forall m :: n <= m <= j ==> !HasLiveEvent(run.worlds[m].db.events, c)
    decreases k - n
  {
    RunFacts(config, run, n, c);
    if HasLiveEvent(run.worlds[n + 1].db.events, c) {
      j := n;
    } else {
      RunRemembers(config, run, n, n + 1, c);
      j := RetryComesFirst(config, run, n + 1, k, c);
    }
  }

  /** While case `c` has no live event, only a lookup that found nothing brings it where it may be retried. */
  lemma {:induction false} AbsenceComesFirst(config: Config, run: Run, n: nat, j: nat, c: CaseId) returns (b: nat)
    requires config.exclusive && IsRun(config, run) && n <= j < |run.worlds|
    requires forall m :: n <= m <= j ==> !HasLiveEvent(run.worlds[m].db.events, c)
    requires !CaseIs(CellOf(run.worlds[n].db, c), NeedsReconciliation)
    requires CaseIs(CellOf(run.worlds[j].db, c), NeedsReconciliation)
    ensures n <= b < j && CommitsAbsence(run.worlds[b], run.steps[b], c)
    decreases j - n
  {
    RunFacts(config, run, n, c);
    if CaseIs(CellOf(run.worlds[n + 1].db, c), NeedsReconciliation) {
      b := n;
    } else {
      b := AbsenceComesFirst(config, run, n + 1, j, c);
    }
  }

  /** Where a lookup comes from: it has read the case at `begun`, and if it found nothing it asked
      the provider at `asked`, when the provider held no refund of the case. */
  ghost predicate Origin(run: Run, b: nat, l: nat, k: Lookup, begun: nat, asked: nat)
    requires |run.worlds| == |run.steps| + 1 && b < |run.worlds|
  {
    && begun < b
    && k.c in run.worlds[begun].db.cases && k.snap == run.worlds[begun].db.cases[k.c]
    && (k.observed.Absent? ==>
          && begun < asked < b
          && run.steps[asked] == LookupAsk(l)
          && k.seen.Some? && k.seen.value.key !in run.worlds[asked].refunds)
  }

  lemma {:induction false} LookupOrigin(config: Config, run: Run, b: nat, l: nat) returns (begun: nat, asked: nat)
    requires IsRun(config, run) && b < |run.worlds| && l in run.worlds[b].lookups
    ensures Origin(run, b, l, run.worlds[b].lookups[l], begun, asked)
    decreases b
  {
    var w, w', step := run.worlds[b - 1], run.worlds[b], run.steps[b - 1];
    assert Taken(config, run, b - 1);
    if l !in w.lookups {
      LookupAppears(config, w, step, w', l);
      begun, asked := b - 1, b - 1;
    } else {
      LookupChanges(config, w, step, w', l);
      begun, asked := LookupOrigin(config, run, b - 1, l);
      if step == LookupAsk(l) {
        asked := b - 1;
      }
    }
  }

  lemma LookupAppears(config: Config, w: World, step: Step, w': World, l: nat)
    requires Next(config, w, step) == Some(w') && l !in w.lookups && l in w'.lookups
    ensures var k := w'.lookups[l];
            k.c in w.db.cases && k.snap == w.db.cases[k.c] && k.observed.NotAsked?
  {
    if !step.LookupReadCase? {
      OthersOpenNoLookup(config, w, step, w', l);
    }
  }

  lemma OthersOpenNoLookup(config: Config, w: World, step: Step, w': World, l: nat)
    requires !step.LookupReadCase? && Next(config, w, step) == Some(w') && l in w'.lookups
    ensures l in w.lookups
  {
  }

  lemma LookupChanges(config: Config, w: World, step: Step, w': World, l: nat)
    requires Next(config, w, step) == Some(w') && l in w.lookups && l in w'.lookups
    ensures w'.lookups[l] == w.lookups[l]
         || (step == LookupReadAttempt(l) && w.lookups[l].seen.None?
             && w'.lookups[l] == w.lookups[l].(seen := w'.lookups[l].seen))
         || (step == LookupAsk(l) && w.lookups[l].seen.Some?
             && w'.lookups[l] == w.lookups[l].(observed := w'.lookups[l].observed)
             && (w'.lookups[l].observed.Absent? ==> w.lookups[l].seen.value.key !in w.refunds))
  {
  }

  predicate BecomesUnknown(run: Run, i: nat, c: CaseId)
    requires |run.worlds| == |run.steps| + 1 && i < |run.steps|
  {
    && !AttemptIs(CellOf(run.worlds[i].db, c), Unknown)
    && AttemptIs(CellOf(run.worlds[i + 1].db, c), Unknown)
  }

  predicate DispatchesAt(run: Run, k: nat, c: CaseId)
    requires |run.worlds| == |run.steps| + 1 && k < |run.steps|
  {
    Dispatches(CellOf(run.worlds[k + 1].db, c)) > Dispatches(CellOf(run.worlds[k].db, c))
  }

  /** A row that is current at the end of an interval and was read at its start has stayed. */
  lemma RowStayed(config: Config, run: Run, a: nat, i: nat, b: nat, c: CaseId)
    requires IsRun(config, run) && a <= i <= b < |run.worlds|
    requires c in run.worlds[a].db.cases && c in run.worlds[b].db.cases
    requires run.worlds[a].db.cases[c] == run.worlds[b].db.cases[c]
    ensures c in run.worlds[i].db.cases && run.worlds[i].db.cases[c] == run.worlds[b].db.cases[c]
  {
    AuditLogIsHistory(config, run, a, a, c);
    AuditLogIsHistory(config, run, a, i, c);
    AuditLogIsHistory(config, run, i, b, c);
    SameLogSameRow(CaseAudit(run.worlds[a].db.audit, c), CaseAudit(run.worlds[i].db.audit, c),
                   CaseAudit(run.worlds[b].db.audit, c));
  }

  lemma SameLogSameRow(a: seq<AuditRow>, i: seq<AuditRow>, b: seq<AuditRow>)
    requires a <= i <= b && |a| == |b|
    ensures a == i == b
  {
  }

  /** Between becoming unknown and the next dispatch: first the provider is asked and holds no
      refund, then that lookup is committed, then a retry is authorised. */
  lemma NoBlindRetry(config: Config, run: Run, i: nat, k: nat, c: CaseId) returns (asked: nat, b: nat, j: nat)
    requires config.exclusive && IsRun(config, run) && i < k < |run.steps|
    requires BecomesUnknown(run, i, c) && DispatchesAt(run, k, c)
    ensures i < asked < b < j < k
    ensures run.steps[asked].LookupAsk? && RefundV1(c) !in run.worlds[asked].refunds
    ensures CommitsAbsence(run.worlds[b], run.steps[b], c) && run.steps[b] == LookupCommit(run.steps[asked].l)
    ensures CommitsRetry(run.worlds[j], run.steps[j], c)
  {
    RunFacts(config, run, i, c);
    RunFacts(config, run, k, c);
    j := RetryComesFirst(config, run, i + 1, k, c);
    UnknownAfter(config, run, i, c);
    StaysFinal(config, run, i + 1, j, c);
    b := AbsenceComesFirst(config, run, i + 1, j, c);
    var begun: nat;
    begun, asked := LookupOrigin(config, run, b, run.steps[b].l);
    RunKeepsInv(config, run, b);
    assert LookupOk(CellOf(run.worlds[b].db, c), run.worlds[b].refunds, run.worlds[b].lookups[run.steps[b].l]);
    CertainBefore(config, run, i, c);
    if begun <= i {
      RowStayed(config, run, begun, i, b, c);
    }
  }

  /** When the attempt becomes unknown, the case is unknown as well, or final. */
  lemma UnknownAfter(config: Config, run: Run, i: nat, c: CaseId)
    requires config.exclusive && IsRun(config, run) && i < |run.steps| && BecomesUnknown(run, i, c)
    ensures c in run.worlds[i + 1].db.cases && !HasLiveEvent(run.worlds[i + 1].db.events, c)
    ensures CaseIs(CellOf(run.worlds[i + 1].db, c), RefundUnknown) || Final(run.worlds[i + 1].db.cases[c].status)
  {
    RunFacts(config, run, i, c);
    QuietWorld(config, run, i + 1, c);
  }

  lemma QuietWorld(config: Config, run: Run, n: nat, c: CaseId)
    requires config.exclusive && IsRun(config, run) && n < |run.worlds|
    requires !HasLiveEvent(run.worlds[n].db.events, c) && AttemptIs(CellOf(run.worlds[n].db, c), Unknown)
    ensures c in run.worlds[n].db.cases
    ensures CaseIs(CellOf(run.worlds[n].db, c), RefundUnknown) || Final(run.worlds[n].db.cases[c].status)
  {
    RunKeepsInv(config, run, n);
    RunKeepsExcl(config, run, n);
    QuietUnknown(config.settings, run.worlds[n].db, c);
  }

  lemma QuietUnknown(settings: Settings, db: Db, c: CaseId)
    requires DbInv(settings, db) && CellsUncertainOk(db) && !HasLiveEvent(db.events, c)
    requires AttemptIs(CellOf(db, c), Unknown)
    ensures c in db.cases && (CaseIs(CellOf(db, c), RefundUnknown) || Final(db.cases[c].status))
  {
    var cell := CellOf(db, c);
    assert CellOk(settings, c, cell) && UncertainOk(cell);
    assert !IsPending(cell);
  }

  /** Until then a worker was at work, so nobody had to decide. */
  lemma CertainBefore(config: Config, run: Run, i: nat, c: CaseId)
    requires config.exclusive && IsRun(config, run) && i < |run.steps| && BecomesUnknown(run, i, c)
    ensures !IsUncertain(CellOf(run.worlds[i].db, c))
  {
    RunFacts(config, run, i, c);
    RunKeepsExcl(config, run, i);
    var e :| LiveEvent(run.worlds[i].db.events, e, c);
  }

  lemma StaysFinal(config: Config, run: Run, i: nat, j: nat, c: CaseId)
    requires IsRun(config, run) && i <= j < |run.worlds| && c in run.worlds[i].db.cases
    ensures Final(run.worlds[i].db.cases[c].status) ==>
              c in run.worlds[j].db.cases && Final(run.worlds[j].db.cases[c].status)
  {
    RunRemembers(config, run, i, j, c);
  }

  /** Where the case is unknown and the attempt failed, that has come about in one way: a lookup that had
      read the case while it needed reconciliation, and the attempt after a later retry had become
      unknown, has committed that the provider knows nothing. */
  lemma OnlyOutdatedLookupsFailUnknownCases(config: Config, run: Run, i: nat, c: CaseId)
    requires config.exclusive && IsRun(config, run) && i < |run.steps|
    requires var cell := CellOf(run.worlds[i].db, c); !(CaseIs(cell, RefundUnknown) && AttemptIs(cell, Failed))
    requires var cell := CellOf(run.worlds[i + 1].db, c); CaseIs(cell, RefundUnknown) && AttemptIs(cell, Failed)
    ensures CommitsOutdatedAbsence(run.worlds[i], run.steps[i], c)
  {
    RunFacts(config, run, i, c);
    RunKeepsExcl(config, run, i);
    assert UncertainOk(CellOf(run.worlds[i].db, c));
  }

  /** The coupling of case, attempt and outbox at level EXCLUSIVE. */
  lemma TablesStayTightlyCoupled(config: Config, run: Run, i: nat, c: CaseId)
    requires config.exclusive && IsRun(config, run) && i < |run.worlds| && c in run.worlds[i].db.cases
    ensures var db := run.worlds[i].db;
            && (db.cases[c].status == RefundPending ==>
                  exists e :: LiveEvent(db.events, e, c) && forall d :: LiveEvent(db.events, d, c) ==> d == e)
            && (Uncertain(db.cases[c].status) ==> !HasLiveEvent(db.events, c) && c in db.attempts)
            && (db.cases[c].status == RefundUnknown ==> db.attempts[c].status in {Unknown, Failed})
            && (db.cases[c].status == NeedsReconciliation ==> db.attempts[c].status == Failed)
  {
    RunKeepsInv(config, run, i);
    RunKeepsExcl(config, run, i);
    var db := run.worlds[i].db;
    assert CellOk(config.settings, c, CellOf(db, c)) && UncertainOk(CellOf(db, c));
    if db.cases[c].status == RefundPending {
      assert IsPending(CellOf(db, c));
      var e :| LiveEvent(db.events, e, c);
      assert forall d :: LiveEvent(db.events, d, c) ==> d == e;
    }
  }
}
