/** What each step makes of an outbox event, field by field, and how an event ends in every run: dead exactly
    by a refusal after the last attempt (level FREE). */
module EventEnds {
  import opened Domain
  import opened Tables
  import opened Returns
  import opened Protocol
  import opened Safety
  import opened Guarantees
  import opened Leases
  import opened Tabulated
  import R = Reference

  /* Steps. */

  predicate Settles(w: World, step: Step, e: EventId) {
    step.Settle? && Holds(w, e, step.s)
  }

  /** The worker's event has been finished by somebody else's evidence: nothing is dispatched. */
  predicate FindsOutcome(w: World, step: Step, e: EventId) {
    && step.Begin? && Holds(w, e, step.s)
    && e in w.db.events && w.db.events[e].status == Processing
    && w.db.events[e].caseId in w.db.attempts && w.db.attempts[w.db.events[e].caseId].status in {Succeeded, Unknown}
  }

  /** What a step that is taken makes of event `e`. */
  function EventNext(settings: Settings, w: World, step: Step, e: EventId): Event
    requires e in w.db.events
  {
    var event := w.db.events[e];
    if step.Claim? && step.e == e then
      event.(status := Processing, leaseUntil := Some(w.now + settings.leaseSeconds * 1_000_000),
             attempts := event.attempts + 1)
    else if FindsOutcome(w, step, e) then event.(status := Done, leaseUntil := None)
    else if !Settles(w, step, e) then event
    else if step.outcome != RepliedRefused then event.(status := Done, leaseUntil := None)
    else if event.attempts >= settings.maxDispatchAttempts then event.(status := Dead, leaseUntil := None)
    else
      event.(status := Pending, leaseUntil := None,
             availableAt := w.now + R.DelaySeconds(event.attempts) * 1_000_000)
  }

  /** The step meets what it needs: what it settles is there, and what it claims is waiting or has outlived its
      lease. */
  predicate Prepared(w: World, step: Step) {
    match step
    case Settle(s, outcome) =>
      && WaitsOn(w, s) && w.db.events[w.sessions[s].e].caseId in w.db.cases
      && (outcome == Replied ==> w.calls[w.sessions[s].stage.call].phase.Answered?)
    case Claim(_, e) => e in w.db.events && w.db.events[e].status in {Pending, Processing}
    case _ => true
  }

  lemma StepIsPrepared(config: Config, w: World, step: Step, w': World)
    requires Inv(config.settings, w) && Next(config, w, step) == Some(w')
    ensures Prepared(w, step)
  {
    match step
    case Settle(s, outcome) =>
      NextSettles(config, w, s, outcome, w');
      SettledAs(config.settings, w, s, outcome, w');
      SettlersCan(config.settings, w, s);
    case Claim(s, e) => NextClaims(config, w, s, e, w');
    case _ =>
  }

  lemma SettledEventNext(settings: Settings, w: World, s: nat, outcome: Outcome, e: EventId)
    requires Prepared(w, Settle(s, outcome)) && e in w.db.events
    ensures var events := R.SettledTables(settings, w, s, outcome).events;
            e in events && events[e] == EventNext(settings, w, Settle(s, outcome), e)
  {
  }

  lemma CommandEventNext(settings: Settings, db: Db, context: Context, cmd: Command, seen: Option<Attempt>, now: Time,
                         newEvent: EventId, e: EventId)
    ensures var r := R.CommandAnswer(settings, db, context, cmd, seen, now, newEvent);
            r.Ok? ==>
              && (e in db.events ==> e in r.value.0.events && r.value.0.events[e] == db.events[e])
              && (e !in db.events && e in r.value.0.events ==>
                    r.value.0.events[e] == Event(context.org, RefundDispatch, cmd.c, Pending, 0, now, None, now))
  {
  }

  lemma LookupEventNext(w: World, l: nat)
    ensures R.LookupTables(w, l).events == w.db.events
  {
  }

  lemma DeliveryEventNext(w: World, key: ProviderKey, eventId: string)
    ensures R.WebhookTables(w, key, eventId).events == w.db.events
  {
  }

  /** A waiting event, claimed by nobody yet, that the step has put into the queue. */
  predicate Arrives(w: World, step: Step, event: Event) {
    && step.TxnCommit? && step.t in w.txns
    && event == Event(w.txns[step.t].context.org, RefundDispatch, w.txns[step.t].cmd.c, Pending, 0, w.now, None, w.now)
  }

  lemma TablesNextEvent(settings: Settings, w: World, step: Step, e: EventId)
    requires Prepared(w, step)
    ensures var events := R.TablesAfter(settings, w, step).events;
            && (e in w.db.events ==> e in events && events[e] == EventNext(settings, w, step, e))
            && (e !in w.db.events && e in events ==> Arrives(w, step, events[e]))
  {
    match step
    case TxnCommit(t, newEvent) =>
      if t in w.txns {
        CommandEventNext(settings, w.db, w.txns[t].context, w.txns[t].cmd, w.txns[t].seen, w.now, newEvent, e);
      }
    case LookupCommit(l) => LookupEventNext(w, l);
    case Webhook(key, eventId) => DeliveryEventNext(w, key, eventId);
    case Settle(s, outcome) =>
      if e in w.db.events {
        SettledEventNext(settings, w, s, outcome, e);
      }
    case _ =>
  }

  /** Every step makes of every event exactly what `EventNext` says: a timeout or an agreeing reply leaves it
      done, a refusal leaves it waiting for its delay or, after the last attempt, dead; a new one arrives
      waiting, under the organization and the case of its command. */
  lemma StepMovesEvent(config: Config, w: World, step: Step, w': World, e: EventId)
    requires Inv(config.settings, w) && Next(config, w, step) == Some(w')
    ensures e in w.db.events ==> e in w'.db.events && w'.db.events[e] == EventNext(config.settings, w, step, e)
    ensures e !in w.db.events && e in w'.db.events ==> Arrives(w, step, w'.db.events[e])
  {
    StepIsPrepared(config, w, step, w');
    StepsAsTabulated(config, w, step, w');
    TablesNextEvent(config.settings, w, step, e);
  }

  /* Runs. */

  /** The step settles a refusal of event `e` after its last attempt. */
  predicate GivesUp(settings: Settings, w: World, step: Step, e: EventId) {
    && Settles(w, step, e) && step.outcome == RepliedRefused
    && e in w.db.events && w.db.events[e].attempts >= settings.maxDispatchAttempts
  }

  /** The step ends event `e` with an outcome: a reply that agrees, a timeout, or an outcome found. */
  predicate Completes(w: World, step: Step, e: EventId) {
    || FindsOutcome(w, step, e)
    || (Settles(w, step, e) && step.outcome != RepliedRefused && e in w.db.events)
  }

  ghost predicate NotSettledBetween(run: Run, i: nat, n: nat, e: EventId)
    requires n <= |run.steps| < |run.worlds|
  {
    forall k :: i < k < n ==> !Settles(run.worlds[k], run.steps[k], e)
  }

  ghost predicate GivenUp(settings: Settings, run: Run, n: nat, e: EventId)
    requires n <= |run.steps| < |run.worlds|
  {
    exists i :: 0 <= i < n && GivesUp(settings, run.worlds[i], run.steps[i], e) && NotSettledBetween(run, i, n, e)
  }

  ghost predicate Completed(run: Run, n: nat, e: EventId)
    requires n <= |run.steps| < |run.worlds|
  {
    exists i :: 0 <= i < n && Completes(run.worlds[i], run.steps[i], e) && NotSettledBetween(run, i, n, e)
  }

  predicate StatusOf(db: Db, e: EventId, status: EventStatus) {
    e in db.events && db.events[e].status == status
  }

  lemma RunMovesEvent(config: Config, run: Run, k: nat, e: EventId)
    requires IsRun(config, run) && k < |run.steps|
    ensures var w, w' := run.worlds[k], run.worlds[k + 1];
            && (e in w.db.events ==>
                  e in w'.db.events && w'.db.events[e] == EventNext(config.settings, w, run.steps[k], e))
            && (e !in w.db.events && e in w'.db.events ==> w'.db.events[e].status == Pending)
            && Prepared(w, run.steps[k])
  {
    RunStep(config, run, k);
    StepMovesEvent(config, run.worlds[k], run.steps[k], run.worlds[k + 1], e);
    StepIsPrepared(config, run.worlds[k], run.steps[k], run.worlds[k + 1]);
  }

  /** How one more step changes whether the event has been given up or completed. */
  lemma EndsGoOn(settings: Settings, run: Run, n: nat, e: EventId)
    requires n < |run.steps| < |run.worlds|
    ensures var w, step := run.worlds[n], run.steps[n];
            && (GivenUp(settings, run, n + 1, e)
                <==> GivesUp(settings, w, step, e) || (GivenUp(settings, run, n, e) && !Settles(w, step, e)))
            && (Completed(run, n + 1, e)
                <==> Completes(w, step, e) || (Completed(run, n, e) && !Settles(w, step, e)))
  {
    var w, step := run.worlds[n], run.steps[n];
    if GivesUp(settings, w, step, e) || Completes(w, step, e) {
      assert NotSettledBetween(run, n, n + 1, e);
    }
    if !Settles(w, step, e) {
      forall i | 0 <= i < n && NotSettledBetween(run, i, n, e) ensures NotSettledBetween(run, i, n + 1, e) {
      }
    }
    forall i | 0 <= i < n && NotSettledBetween(run, i, n + 1, e)
      ensures NotSettledBetween(run, i, n, e) && !Settles(w, step, e)
    {
    }
  }

  lemma StatusGoesOn(settings: Settings, w: World, step: Step, e: EventId)
    requires Prepared(w, step) && e in w.db.events
    ensures var before, after := w.db.events[e].status, EventNext(settings, w, step, e).status;
            && (after == Dead <==> GivesUp(settings, w, step, e) || (before == Dead && !Settles(w, step, e)))
            && (after == Done <==> Completes(w, step, e) || (before == Done && !Settles(w, step, e)))
  {
  }

  lemma {:induction false} EventEndsExactly(config: Config, run: Run, n: nat, e: EventId)
    requires IsRun(config, run) && n < |run.worlds|
    ensures StatusOf(run.worlds[n].db, e, Dead) <==> GivenUp(config.settings, run, n, e)
    ensures StatusOf(run.worlds[n].db, e, Done) <==> Completed(run, n, e)
  {
    if n == 0 {
      assert run.worlds[0] == INITIAL;
    } else {
      EventEndsExactly(config, run, n - 1, e);
      RunMovesEvent(config, run, n - 1, e);
      EndsGoOn(config.settings, run, n - 1, e);
      if e in run.worlds[n - 1].db.events {
        StatusGoesOn(config.settings, run.worlds[n - 1], run.steps[n - 1], e);
      }
    }
  }

  /** In every run an event is dead if and only if the last worker that has settled it had been refused after
      the last attempt. */
  lemma DeadExactly(config: Config, run: Run, n: nat, e: EventId)
    requires IsRun(config, run) && n < |run.worlds| && e in run.worlds[n].db.events
    ensures run.worlds[n].db.events[e].status == Dead
       <==> exists i :: 0 <= i < n && GivesUp(config.settings, run.worlds[i], run.steps[i], e)
                        && NotSettledBetween(run, i, n, e)
  {
    EventEndsExactly(config, run, n, e);
  }

  /** And it is done if and only if a worker has settled it on a timeout or an agreeing reply, or has found its
      outcome known, and none has settled it since. */
  lemma DoneExactly(config: Config, run: Run, n: nat, e: EventId)
    requires IsRun(config, run) && n < |run.worlds| && e in run.worlds[n].db.events
    ensures run.worlds[n].db.events[e].status == Done
       <==> exists i :: 0 <= i < n && Completes(run.worlds[i], run.steps[i], e)
                        && NotSettledBetween(run, i, n, e)
  {
    EventEndsExactly(config, run, n, e);
  }
}
