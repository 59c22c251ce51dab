/** What each step does to an outbox event, and what leases guarantee over timed runs (level FREE). */
module Leases {
  import opened Domain
  import opened Tables
  import opened Outbox
  import opened Returns
  import opened Payments
  import opened Provider
  import opened Confirmation
  import opened Cells
  import opened Ledger
  import opened Settlement
  import opened Protocol
  import opened Safety
  import opened Guarantees
  import opened Exclusive

  /** The step is a refusal that puts event `e` back into the queue. */
  predicate Reschedules(settings: Settings, w: World, step: Step, e: EventId) {
    && step.Settle? && step.outcome == RepliedRefused
    && Holds(w, e, step.s)
    && e in w.db.events && w.db.events[e].attempts < settings.maxDispatchAttempts
  }

  /** All that can happen to an event: a claim when eligible, an end, or a way back into the queue. */
  predicate EventMoves(config: Config, w: World, step: Step, w': World, e: EventId)
    requires e in w.db.events
  {
    e in w'.db.events &&
    var before, after := w.db.events[e], w'.db.events[e];
    if step.Claim? && step.e == e then
      Eligible(before, w.now) && after == Claimed(before, w.now, config.settings.leaseSeconds)
    else if Reschedules(config.settings, w, step, e) then
      after == Rescheduled(before, w.now, Backoff(before.attempts))
    else if step.Settle? && Holds(w, e, step.s) then
      after in {MarkDone(before), DeadLetter(before)}
    else
      after == before || (step.Begin? && Holds(w, e, step.s) && after == MarkDone(before))
  }

  /** Every event makes one of those moves, and a new one starts out waiting and unclaimed. */
  ghost predicate EventsMove(config: Config, w: World, step: Step, w': World) {
    && (forall e {:trigger w.db.events[e]} :: e in w.db.events ==> EventMoves(config, w, step, w', e))
    && (forall e {:trigger e in w'.db.events} ::
          e in w'.db.events && e !in w.db.events ==>
            w'.db.events[e].status == Pending && w'.db.events[e].attempts == 0)
  }

  lemma QuietEvents(config: Config, w: World, step: Step, w': World)
    requires w'.db.events == w.db.events && !step.Claim? && !step.Settle?
    ensures EventsMove(config, w, step, w')
  {
  }

  /** Only event `e` has changed. */
  lemma OneEvent(config: Config, w: World, step: Step, w': World, e: EventId)
    requires e in w.db.events && EventMoves(config, w, step, w', e)
    requires w'.db.events == w.db.events[e := w'.db.events[e]]
    requires (step.Claim? ==> step.e == e) && (step.Settle? ==> Holds(w, e, step.s))
    ensures EventsMove(config, w, step, w')
  {
  }

  /** A command leaves the queue alone or adds one waiting event. */
  predicate EventAdded(events: map<EventId, Event>, events': map<EventId, Event>, e: EventId) {
    || events' == events
    || (e !in events && e in events' && events' == events[e := events'[e]]
        && events'[e].status == Pending && events'[e].attempts == 0)
  }

  lemma CommandAdds(settings: Settings, w: World, t: nat, newEvent: EventId, w': World)
    requires Inv(settings, w) && StepTxnCommit(settings, w, t, newEvent) == Some(w')
    ensures EventAdded(w.db.events, w'.db.events, newEvent)
  {
    CommandStep(settings, w, t, newEvent, w');
    ExecAdds(settings, w.db, w.txns[t].context, w.txns[t].cmd, w.txns[t].seen, w.now, newEvent, w'.db);
  }

  lemma ExecAdds(settings: Settings, db: Db, context: Context, cmd: Command, seen: Option<Attempt>, now: Time,
                 e: EventId, db': Db)
    requires CellsOk(settings, db)
    requires var r := ExecOn(settings, db, context, cmd, seen, now, e); r.Ok? && r.value.0 == db'
    ensures EventAdded(db.events, db'.events, e)
  {
    assert CellOk(settings, cmd.c, CellOf(db, cmd.c));
    ExecEffect(settings, db, context, cmd, seen, now, e, ExecOn(settings, db, context, cmd, seen, now, e).value);
  }

  lemma AddedMoves(config: Config, w: World, step: Step, w': World)
    requires step.TxnCommit? && EventAdded(w.db.events, w'.db.events, step.newEvent)
    ensures EventsMove(config, w, step, w')
  {
  }

  lemma LookupEvents(db: Db, c: CaseId, snap: CaseRow, seen: Attempt, observed: Observation)
    requires c in db.attempts && !observed.NotAsked?
    ensures var r := Reconcile(db, c, snap, seen, observed); r.Ok? ==> r.value.0.events == db.events
  {
    ManualEvents(db, c, snap);
    ManualEvents(WithAttempt(db, c, AbsentAttempt(db.attempts[c], seen)), c, snap);
    if observed.Found? {
      SuccessEvents(db, c, seen, snap, observed.row.refundId, EvidenceOf(observed.row, ""));
    }
  }

  lemma ManualEvents(db: Db, c: CaseId, snap: CaseRow)
    requires c in db.attempts
    ensures var r := MarkManualReconciliationNeeded(db, c, snap); r.Ok? ==> r.value.events == db.events
  {
  }

  lemma SuccessEvents(db: Db, c: CaseId, seen: Attempt, snap: CaseRow, providerRef: string, evidence: Evidence)
    requires c in db.attempts
    ensures var r := MarkSuccess(db, c, seen, snap, providerRef, evidence); r.Ok? ==> r.value.events == db.events
  {
  }

  lemma EvidenceEvents(config: Config, w: World, step: Step, w': World)
    requires step.LookupCommit? || step.Webhook?
    requires Inv(config.settings, w) && Next(config, w, step) == Some(w')
    ensures w'.db.events == w.db.events
  {
    if step.LookupCommit? {
      var k := w.lookups[step.l];
      LookupEvents(w.db, k.c, k.snap, k.seen.value, k.observed);
    } else {
      var row := w.refunds[step.key];
      RowOfAttempt(w, step.key.caseId, row);
      WebhookEffect(config.settings, w.db, row, step.key.caseId, step.eventId,
                    ProcessWebhook(w.db, PayloadOf(row, step.key, step.eventId)).value);
    }
  }

  /** What a worker about to settle can rely on at this level. */
  predicate CanSettle(settings: Settings, w: World, s: nat) {
    && WaitsOn(w, s)
    && var c := w.db.events[w.sessions[s].e].caseId;
       var phase := w.calls[w.sessions[s].stage.call].phase;
       && CaseLoads(w.db, c) && CellOk(settings, c, CellOf(w.db, c))
       && (phase.Answered? ==> RowMatches(phase.reply, w.db.attempts[c]))
  }

  lemma SettlersCan(settings: Settings, w: World, s: nat)
    requires DbInv(settings, w.db) && NetworkInv(w) && WaitsOn(w, s)
    ensures CanSettle(settings, w, s)
  {
    AttemptOfEvent(settings, w.db, w.sessions[s].e);
    if w.calls[w.sessions[s].stage.call].phase.Answered? {
      ReplyGiven(settings, w, s);
    }
  }

  function EventAfter(settings: Settings, event: Event, outcome: Outcome, now: Time): Event {
    if outcome == RepliedRefused then RefusedEvent(settings, event, now) else MarkDone(event)
  }

  lemma SettledEvents(settings: Settings, w: World, s: nat, outcome: Outcome, db': Db)
    requires CanSettle(settings, w, s) && Settled(settings, w, s, outcome) == Ok(db')
    ensures var e := w.sessions[s].e;
            db'.events == w.db.events[e := EventAfter(settings, w.db.events[e], outcome, w.now)]
  {
    var e := w.sessions[s].e;
    match outcome {
      case TimedOut => TimeoutShape(w.db, e, db');
      case RepliedRefused => RefusedShape(settings, w.db, e, w.now, db');
      case Replied => ReplyShape(settings, w.db, e, w.calls[w.sessions[s].stage.call].phase.reply, db');
    }
  }

  lemma SettleMoves(config: Config, w: World, step: Step, w': World)
    requires step.Settle? && WaitsOn(w, step.s)
    requires var e := w.sessions[step.s].e;
             w'.db.events == w.db.events[e := EventAfter(config.settings, w.db.events[e], step.outcome, w.now)]
    ensures EventsMove(config, w, step, w')
  {
  }

  lemma SettleEvents(config: Config, w: World, step: Step, w': World)
    requires step.Settle? && Inv(config.settings, w) && StepSettle(config.settings, w, step.s, step.outcome) == Some(w')
    ensures EventsMove(config, w, step, w')
  {
    SettlersCan(config.settings, w, step.s);
    SettledEvents(config.settings, w, step.s, step.outcome, w'.db);
    SettleMoves(config, w, step, w');
  }

  lemma BeginEvents(config: Config, w: World, step: Step, w': World)
    requires step.Begin? && Inv(config.settings, w) && StepBegin(w, step.s) == Some(w')
    ensures EventsMove(config, w, step, w')
  {
    BeginEffect(config.settings, w, step.s, w');
    BeginMoves(config, w, step, w');
  }

  lemma BeginEffect(settings: Settings, w: World, s: nat, w': World)
    requires DbInv(settings, w.db) && StepBegin(w, s) == Some(w')
    ensures s in w.sessions && w.sessions[s].e in w.db.events
    ensures var e := w.sessions[s].e;
            w'.db.events == w.db.events || w'.db.events == w.db.events[e := MarkDone(w.db.events[e])]
  {
    if |w'.calls| > |w.calls| {
      DispatchEffect(settings, w, s, w');
    } else {
      NoDispatch(settings, w, s, w');
    }
  }

  lemma NoDispatch(settings: Settings, w: World, s: nat, w': World)
    requires DbInv(settings, w.db) && StepBegin(w, s) == Some(w') && |w'.calls| == |w.calls|
    ensures var e := w.sessions[s].e;
            w'.db.events == w.db.events || w'.db.events == w.db.events[e := MarkDone(w.db.events[e])]
  {
    var e := w.sessions[s].e;
    if w.db.events[e].status == Processing {
      SkipKeeps(settings, w.db, e, w'.db);
    }
  }

  lemma BeginMoves(config: Config, w: World, step: Step, w': World)
    requires step.Begin? && step.s in w.sessions && w.sessions[step.s].e in w.db.events
    requires var e := w.sessions[step.s].e;
             w'.db.events == w.db.events || w'.db.events == w.db.events[e := MarkDone(w.db.events[e])]
    ensures EventsMove(config, w, step, w')
  {
  }

  lemma WorkerEvents(config: Config, w: World, step: Step, w': World)
    requires step.Claim? || step.Settle? || step.Begin?
    requires Inv(config.settings, w) && Next(config, w, step) == Some(w')
    ensures EventsMove(config, w, step, w')
  {
    if step.Claim? {
      NextClaims(config, w, step.s, step.e, w');
      ClaimEvents(config, w, step, w');
    } else if step.Settle? {
      NextSettles(config, w, step.s, step.outcome, w');
      SettleEvents(config, w, step, w');
    } else {
      NextBegins(config, w, step.s, w');
      BeginEvents(config, w, step, w');
    }
  }

  lemma ClaimEvents(config: Config, w: World, step: Step, w': World)
    requires step.Claim? && StepClaim(config, w, step.s, step.e) == Some(w')
    ensures EventsMove(config, w, step, w')
  {
    OneEvent(config, w, step, w', step.e);
  }

  /** Every step moves every event in one of the ways above. */
  lemma StepMovesEvents(config: Config, w: World, step: Step, w': World)
    requires Inv(config.settings, w) && Next(config, w, step) == Some(w')
    ensures EventsMove(config, w, step, w')
  {
    if step.Claim? || step.Settle? || step.Begin? {
      WorkerEvents(config, w, step, w');
    } else if step.TxnCommit? {
      CommandAdds(config.settings, w, step.t, step.newEvent, w');
      AddedMoves(config, w, step, w');
    } else {
      OtherEvents(config, w, step, w');
      QuietEvents(config, w, step, w');
    }
  }

  lemma OtherEvents(config: Config, w: World, step: Step, w': World)
    requires !step.Claim? && !step.Settle? && !step.Begin? && !step.TxnCommit?
    requires Inv(config.settings, w) && Next(config, w, step) == Some(w')
    ensures w'.db.events == w.db.events
  {
    if step.LookupCommit? || step.Webhook? {
      EvidenceEvents(config, w, step, w');
    } else if step.Create? {
      assert StepCreate(w, step.context, step.c, step.requested, step.currency) == Some(w');
    } else {
      OtherTablesUntouched(config, w, step, w');
    }
  }

  lemma TimePasses(config: Config, w: World, step: Step, w': World)
    requires Next(config, w, step) == Some(w')
    ensures w.now <= w'.now && (!step.Tick? ==> w'.now == w.now)
  {
  }

  lemma RunMovesEvents(config: Config, run: Run, k: nat)
    requires IsRun(config, run) && k < |run.steps|
    ensures EventsMove(config, run.worlds[k], run.steps[k], run.worlds[k + 1])
    ensures run.worlds[k].now <= run.worlds[k + 1].now
    ensures !run.steps[k].Tick? ==> run.worlds[k + 1].now == run.worlds[k].now
  {
    RunKeepsInv(config, run, k);
    assert Taken(config, run, k);
    StepMovesEvents(config, run.worlds[k], run.steps[k], run.worlds[k + 1]);
    TimePasses(config, run.worlds[k], run.steps[k], run.worlds[k + 1]);
  }

  /** The event is finished, or leased until `limit` at the earliest. */
  predicate LeasedUntil(events: map<EventId, Event>, e: EventId, limit: Time) {
    && e in events
    && (events[e].status in {Done, Dead}
        || (events[e].status == Processing && events[e].leaseUntil.Some? && events[e].leaseUntil.value >= limit))
  }

  lemma LeaseStep(config: Config, w: World, step: Step, w': World, e: EventId, limit: Time)
    requires e in w.db.events && EventMoves(config, w, step, w', e)
    requires limit <= w.now + config.settings.leaseSeconds * SECOND
    requires LeasedUntil(w.db.events, e, limit) || (step.Claim? && step.e == e)
    requires !Reschedules(config.settings, w, step, e)
    ensures LeasedUntil(w'.db.events, e, limit)
  {
  }

  lemma LeaseRunStep(config: Config, run: Run, k: nat, e: EventId, limit: Time)
    requires IsRun(config, run) && k < |run.steps| && e in run.worlds[k].db.events
    requires limit <= run.worlds[k].now + config.settings.leaseSeconds * SECOND
    requires LeasedUntil(run.worlds[k].db.events, e, limit) || (run.steps[k].Claim? && run.steps[k].e == e)
    requires !Reschedules(config.settings, run.worlds[k], run.steps[k], e)
    ensures LeasedUntil(run.worlds[k + 1].db.events, e, limit) && run.worlds[k].now <= run.worlds[k + 1].now
  {
    RunMovesEvents(config, run, k);
    assert EventMoves(config, run.worlds[k], run.steps[k], run.worlds[k + 1], e);
    LeaseStep(config, run.worlds[k], run.steps[k], run.worlds[k + 1], e, limit);
  }

  lemma {:induction false} LeaseLasts(config: Config, run: Run, i: nat, k: nat, e: EventId)
    requires IsRun(config, run) && i < k < |run.worlds|
    requires run.steps[i].Claim? && run.steps[i].e == e
    requires forall x :: i < x < k ==> !Reschedules(config.settings, run.worlds[x], run.steps[x], e)
    ensures LeasedUntil(run.worlds[k].db.events, e, run.worlds[i].now + config.settings.leaseSeconds * SECOND)
    ensures run.worlds[i].now <= run.worlds[k].now
    decreases k - i
  {
    var limit := run.worlds[i].now + config.settings.leaseSeconds * SECOND;
    if k == i + 1 {
      ClaimedExists(config, run, i);
    } else {
      LeaseLasts(config, run, i, k - 1, e);
    }
    LeaseRunStep(config, run, k - 1, e, limit);
  }

  lemma ClaimedExists(config: Config, run: Run, i: nat)
    requires IsRun(config, run) && i < |run.steps| && run.steps[i].Claim?
    ensures run.steps[i].e in run.worlds[i].db.events
    ensures Eligible(run.worlds[i].db.events[run.steps[i].e], run.worlds[i].now)
  {
    assert Taken(config, run, i);
  }

  /** Two claims of one event with no reschedule between them are more than a lease apart, whatever
      else happened in between. */
  lemma ClaimsAreALeaseApart(config: Config, run: Run, i: nat, j: nat, e: EventId)
    requires IsRun(config, run) && i < j < |run.steps|
    requires run.steps[i].Claim? && run.steps[i].e == e && run.steps[j].Claim? && run.steps[j].e == e
    requires forall k :: i < k < j ==> !Reschedules(config.settings, run.worlds[k], run.steps[k], e)
    ensures run.worlds[j].now > run.worlds[i].now + config.settings.leaseSeconds * SECOND
  {
    LeaseLasts(config, run, i, j, e);
    ClaimedExists(config, run, j);
  }
}
