/** How often an event is retried, and how long that takes (levels FREE and EXCLUSIVE). */
module RetryBudget {
  import opened Domain
  import opened Tables
  import opened Outbox
  import opened Protocol
  import opened Exclusive
  import opened NoBlindRetry
  import opened Leases

  /** How often event `e` has been put back into the queue in the first `n` steps. */
  function ReschedulesUpTo(settings: Settings, run: Run, n: nat, e: EventId): nat
    requires n <= |run.steps| < |run.worlds|
  {
    if n == 0 then 0
    else
      ReschedulesUpTo(settings, run, n - 1, e)
      + if Reschedules(settings, run.worlds[n - 1], run.steps[n - 1], e) then 1 else 0
  }

  function HoldersOf(sessions: map<nat, Session>, e: EventId): set<nat> {
    set s | s in sessions && sessions[s].e == e
  }

  /* Workers come with a claim and leave when they have settled. */

  /** What a step does to the workers. */
  predicate WorkersMove(w: World, step: Step, w': World) {
    match step
    case Claim(s, e) => s !in w.sessions && w'.sessions == w.sessions[s := Session(e, ClaimHeld)]
    case Settle(s, _) => s in w.sessions && w'.sessions == w.sessions - {s}
    case Crash(s) => s in w.sessions && w'.sessions == w.sessions - {s}
    case Begin(s) =>
      s in w.sessions
      && ((w'.sessions == w.sessions - {s}
           && w.sessions[s].e in w.db.events
           && (w.db.events[w.sessions[s].e].status != Processing
               || (w.sessions[s].e in w'.db.events
                   && w'.db.events[w.sessions[s].e].status in {Done, Dead})))
          || (s in w'.sessions && w'.sessions == w.sessions[s := w'.sessions[s]]
              && w'.sessions[s].e == w.sessions[s].e))
    case _ => w'.sessions == w.sessions
  }

  lemma StepMovesWorkers(config: Config, w: World, step: Step, w': World)
    requires Next(config, w, step) == Some(w')
    ensures WorkersMove(w, step, w')
  {
    match step {
      case Claim(s, e) => NextClaims(config, w, s, e, w');
      case Settle(s, outcome) => NextSettles(config, w, s, outcome, w');
      case Begin(s) =>
        NextBegins(config, w, s, w');
        BeginWorkers(w, s, w');
      case _ =>
    }
  }

  lemma BeginWorkers(w: World, s: nat, w': World)
    requires StepBegin(w, s) == Some(w')
    ensures WorkersMove(w, Begin(s), w')
  {
  }

  lemma HolderGone(sessions: map<nat, Session>, s: nat, e: EventId)
    ensures HoldersOf(sessions - {s}, e) == HoldersOf(sessions, e) - {s}
  {
  }

  lemma HolderWritten(sessions: map<nat, Session>, s: nat, session: Session, e: EventId)
    ensures HoldersOf(sessions[s := session], e)
         == HoldersOf(sessions, e) - {s} + (if session.e == e then {s} else {})
  {
  }

  lemma HoldersMove(w: World, step: Step, w': World, e: EventId)
    requires WorkersMove(w, step, w')
    ensures |HoldersOf(w'.sessions, e)|
         <= |HoldersOf(w.sessions, e)| + (if step.Claim? && step.e == e then 1 else 0)
            - (if step.Settle? && Holds(w, e, step.s) then 1 else 0)
  {
    match step {
      case Claim(s, d) => HolderWritten(w.sessions, s, Session(d, ClaimHeld), e);
      case Settle(s, _) => HolderGone(w.sessions, s, e);
      case Crash(s) => HolderGone(w.sessions, s, e);
      case Begin(s) => BegunHolders(w, s, w', e);
      case _ =>
    }
  }

  lemma BegunHolders(w: World, s: nat, w': World, e: EventId)
    requires WorkersMove(w, Begin(s), w')
    ensures |HoldersOf(w'.sessions, e)| <= |HoldersOf(w.sessions, e)|
  {
    var holders := HoldersOf(w.sessions, e);
    if s in w'.sessions {
      HolderWritten(w.sessions, s, w'.sessions[s], e);
      assert HoldersOf(w'.sessions, e) == holders;
    } else {
      HolderGone(w.sessions, s, e);
    }
  }

  /* Level FREE: the budget of reschedules. */

  /** Each reschedule has used up a claim that no worker of the event stands for any more. */
  predicate WithinBudget(settings: Settings, w: World, e: EventId, rescheduled: nat) {
    && rescheduled + |HoldersOf(w.sessions, e)| <= (if e in w.db.events then w.db.events[e].attempts else 0)
    && (rescheduled == 0 || rescheduled < settings.maxDispatchAttempts)
  }

  lemma BudgetStep(config: Config, w: World, step: Step, w': World, e: EventId, rescheduled: nat)
    requires WithinBudget(config.settings, w, e, rescheduled)
    requires EventsMove(config, w, step, w') && WorkersMove(w, step, w') && (step.Claim? ==> step.e in w.db.events)
    ensures WithinBudget(config.settings, w', e,
                         rescheduled + if Reschedules(config.settings, w, step, e) then 1 else 0)
  {
    HoldersMove(w, step, w', e);
    if e in w.db.events {
      assert EventMoves(config, w, step, w', e);
      if Reschedules(config.settings, w, step, e) {
        assert step.s in HoldersOf(w.sessions, e);
      }
    }
  }

  lemma RunMovesWorkers(config: Config, run: Run, k: nat)
    requires IsRun(config, run) && k < |run.steps|
    ensures WorkersMove(run.worlds[k], run.steps[k], run.worlds[k + 1])
    ensures run.steps[k].Claim? ==> run.steps[k].e in run.worlds[k].db.events
  {
    assert Taken(config, run, k);
    StepMovesWorkers(config, run.worlds[k], run.steps[k], run.worlds[k + 1]);
    if run.steps[k].Claim? {
      ClaimedExists(config, run, k);
    }
  }

  lemma StartsWithinBudget(settings: Settings, e: EventId)
    ensures WithinBudget(settings, INITIAL, e, 0)
  {
    assert HoldersOf(INITIAL.sessions, e) == {};
  }

  lemma BudgetRunStep(config: Config, run: Run, k: nat, e: EventId, rescheduled: nat)
    requires IsRun(config, run) && k < |run.steps|
    requires WithinBudget(config.settings, run.worlds[k], e, rescheduled)
    ensures WithinBudget(config.settings, run.worlds[k + 1], e,
                         rescheduled + if Reschedules(config.settings, run.worlds[k], run.steps[k], e) then 1 else 0)
  {
    RunMovesEvents(config, run, k);
    RunMovesWorkers(config, run, k);
    BudgetStep(config, run.worlds[k], run.steps[k], run.worlds[k + 1], e, rescheduled);
  }

  lemma {:induction false} RunWithinBudget(config: Config, run: Run, n: nat, e: EventId)
    requires IsRun(config, run) && n <= |run.steps|
    ensures WithinBudget(config.settings, run.worlds[n], e, ReschedulesUpTo(config.settings, run, n, e))
  {
    if n == 0 {
      assert run.worlds[0] == INITIAL;
      StartsWithinBudget(config.settings, e);
    } else {
      RunWithinBudget(config, run, n - 1, e);
      BudgetRunStep(config, run, n - 1, e, ReschedulesUpTo(config.settings, run, n - 1, e));
    }
  }

  /** For any maximum m >= 1, no event is rescheduled more than m - 1 times - even when leases are
      taken over from workers still at work. */
  lemma RescheduledBelowMaximum(config: Config, run: Run, n: nat, e: EventId)
    requires IsRun(config, run) && n <= |run.steps|
    ensures ReschedulesUpTo(config.settings, run, n, e)
         <= if config.settings.maxDispatchAttempts >= 1 then config.settings.maxDispatchAttempts - 1 else 0
  {
    RunWithinBudget(config, run, n, e);
  }

  /* Level EXCLUSIVE, without crashes: the exact course of an event. */

  /** No worker of `e` crashes, or fails to commit what it has learnt, in the first `n` steps. */
  predicate CrashFree(run: Run, n: nat, e: EventId)
    requires n <= |run.steps| < |run.worlds|
  {
    forall k :: 0 <= k < n ==> !(run.steps[k].Crash? && Holds(run.worlds[k], e, run.steps[k].s))
  }

  /** Claims and reschedules alternate, and a claimed event has its worker. */
  ghost predicate OnCourse(settings: Settings, w: World, e: EventId, rescheduled: nat) {
    if e !in w.db.events then rescheduled == 0
    else
      var event := w.db.events[e];
      && event.attempts == rescheduled + (if event.status == Pending then 0 else 1)
      && (rescheduled == 0 || rescheduled < settings.maxDispatchAttempts)
      && (event.status == Processing ==> exists s :: Holds(w, e, s))
      && (event.status != Processing ==> forall s :: !Holds(w, e, s))
  }

  /** A claim leaves a worker on the event, and nothing but its own end takes the worker away. */
  lemma WorkerStays(w: World, step: Step, w': World, e: EventId)
    requires WorkersMove(w, step, w') && e in w.db.events && e in w'.db.events
    requires w'.db.events[e].status == Processing
    requires (exists s :: Holds(w, e, s)) || (step.Claim? && step.e == e)
    requires !((step.Crash? || step.Settle?) && Holds(w, e, step.s))
    requires w.db.events[e].status == Processing || step.Claim?
    ensures exists s :: Holds(w', e, s)
  {
    if step.Claim? && step.e == e {
      assert Holds(w', e, step.s);
    } else {
      var s :| Holds(w, e, s);
      assert Holds(w', e, s);
    }
  }

  lemma CourseStep(config: Config, w: World, step: Step, w': World, e: EventId, rescheduled: nat)
    requires config.exclusive && OneHolder(w'.db.events, w'.sessions)
    requires e in w.db.events && OnCourse(config.settings, w, e, rescheduled)
    requires EventMoves(config, w, step, w', e) && WorkersMove(w, step, w')
    requires step.Claim? ==> MayClaim(config, w, step.e)
    requires !(step.Crash? && Holds(w, e, step.s))
    ensures OnCourse(config.settings, w', e, rescheduled + if Reschedules(config.settings, w, step, e) then 1 else 0)
  {
    if w'.db.events[e].status == Processing {
      WorkerStays(w, step, w', e);
    }
  }

  lemma CourseStarts(config: Config, w: World, step: Step, w': World, e: EventId)
    requires e !in w.db.events && OnCourse(config.settings, w, e, 0)
    requires EventsMove(config, w, step, w') && OneHolder(w'.db.events, w'.sessions)
    ensures OnCourse(config.settings, w', e, 0)
  {
    if e in w'.db.events {
      assert forall s :: s in w'.sessions ==> w'.db.events[w'.sessions[s].e].status == Processing;
    }
  }

  lemma CourseRunStep(config: Config, run: Run, k: nat, e: EventId, rescheduled: nat)
    requires IsRun(config, run) && config.exclusive && k < |run.steps|
    requires OnCourse(config.settings, run.worlds[k], e, rescheduled)
    requires !(run.steps[k].Crash? && Holds(run.worlds[k], e, run.steps[k].s))
    ensures OnCourse(config.settings, run.worlds[k + 1], e,
                     rescheduled + if Reschedules(config.settings, run.worlds[k], run.steps[k], e) then 1 else 0)
  {
    RunMovesEvents(config, run, k);
    RunMovesWorkers(config, run, k);
    RunKeepsExcl(config, run, k + 1);
    ClaimsExclusively(config, run, k);
    if e in run.worlds[k].db.events {
      assert EventMoves(config, run.worlds[k], run.steps[k], run.worlds[k + 1], e);
      CourseStep(config, run.worlds[k], run.steps[k], run.worlds[k + 1], e, rescheduled);
    } else {
      CourseStarts(config, run.worlds[k], run.steps[k], run.worlds[k + 1], e);
    }
  }

  lemma ClaimsExclusively(config: Config, run: Run, k: nat)
    requires IsRun(config, run) && k < |run.steps|
    ensures run.steps[k].Claim? ==> MayClaim(config, run.worlds[k], run.steps[k].e)
  {
    assert Taken(config, run, k);
  }

  lemma {:induction false} RunOnCourse(config: Config, run: Run, n: nat, e: EventId)
    requires IsRun(config, run) && config.exclusive && n <= |run.steps| && CrashFree(run, n, e)
    ensures OnCourse(config.settings, run.worlds[n], e, ReschedulesUpTo(config.settings, run, n, e))
  {
    if n == 0 {
      assert run.worlds[0] == INITIAL;
    } else {
      RunOnCourse(config, run, n - 1, e);
      CourseRunStep(config, run, n - 1, e, ReschedulesUpTo(config.settings, run, n - 1, e));
    }
  }

  /** Without crashes an event is claimed at most m times, and after the m-th it is done or dead. */
  lemma FinishedWithinMaximum(config: Config, run: Run, n: nat, e: EventId)
    requires IsRun(config, run) && config.exclusive && n <= |run.steps| && CrashFree(run, n, e)
    requires config.settings.maxDispatchAttempts >= 1 && e in run.worlds[n].db.events
    ensures var event := run.worlds[n].db.events[e];
            && event.attempts <= config.settings.maxDispatchAttempts
            && (event.attempts == config.settings.maxDispatchAttempts && (forall s :: !Holds(run.worlds[n], e, s)) ==>
                  event.status in {Done, Dead})
  {
    RunOnCourse(config, run, n, e);
  }

  /* How long the retries take. */

  /** The waiting time ordered by the reschedules of `e` in the first `n` steps. */
  function DelaysUpTo(settings: Settings, run: Run, n: nat, e: EventId): int
    requires n <= |run.steps| < |run.worlds|
  {
    if n == 0 then 0
    else
      DelaysUpTo(settings, run, n - 1, e)
      + if Reschedules(settings, run.worlds[n - 1], run.steps[n - 1], e) && e in run.worlds[n].db.events
        then run.worlds[n].db.events[e].availableAt - run.worlds[n - 1].now else 0
  }

  /** 2^n - 1 seconds for up to six reschedules, and a minute for each one after. */
  function TotalDelay(n: nat): int {
    if n <= 6 then Pow2(n) - 1 else 63 + 60 * (n - 6)
  }

  lemma {:induction false} Pow2Grows(n: nat)
    requires n >= 6
    ensures Pow2(n) >= 64
  {
    if n > 6 {
      Pow2Grows(n - 1);
    } else {
      assert Pow2(3) == 8;
      assert Pow2(6) == 64;
    }
  }

  lemma BackoffAdds(n: nat)
    requires n >= 1
    ensures TotalDelay(n) == TotalDelay(n - 1) + Backoff(n)
  {
    if n <= 6 {
      assert Pow2(2) == 4;
      assert Pow2(4) == 16 && Pow2(5) == 32;
    } else {
      Pow2Grows(n - 1);
      assert Pow2(3) == 8;
      assert Pow2(6) == 64;
    }
  }

  lemma DelayStep(config: Config, w: World, step: Step, w': World, e: EventId, rescheduled: nat)
    requires Reschedules(config.settings, w, step, e) && EventMoves(config, w, step, w', e)
    requires OnCourse(config.settings, w, e, rescheduled)
    ensures e in w'.db.events && w'.db.events[e].availableAt - w.now == Backoff(rescheduled + 1) * SECOND
  {
    assert w.db.events[e].status == Processing;
  }

  lemma DelayRunStep(config: Config, run: Run, n: nat, e: EventId)
    requires IsRun(config, run) && config.exclusive && n < |run.steps| && CrashFree(run, n, e)
    requires Reschedules(config.settings, run.worlds[n], run.steps[n], e)
    ensures e in run.worlds[n + 1].db.events
    ensures run.worlds[n + 1].db.events[e].availableAt - run.worlds[n].now
         == Backoff(ReschedulesUpTo(config.settings, run, n, e) + 1) * SECOND
  {
    RunMovesEvents(config, run, n);
    RunOnCourse(config, run, n, e);
    DelayStep(config, run.worlds[n], run.steps[n], run.worlds[n + 1], e, ReschedulesUpTo(config.settings, run, n, e));
  }

  /** Without crashes, n reschedules make an event wait for TotalDelay(n) seconds in all. */
  lemma {:induction false} DelaysAddUp(config: Config, run: Run, n: nat, e: EventId)
    requires IsRun(config, run) && config.exclusive && n <= |run.steps| && CrashFree(run, n, e)
    ensures DelaysUpTo(config.settings, run, n, e) == TotalDelay(ReschedulesUpTo(config.settings, run, n, e)) * SECOND
  {
    if n > 0 {
      DelaysAddUp(config, run, n - 1, e);
      if Reschedules(config.settings, run.worlds[n - 1], run.steps[n - 1], e) {
        DelayRunStep(config, run, n - 1, e);
        BackoffAdds(ReschedulesUpTo(config.settings, run, n - 1, e) + 1);
      }
    }
  }
}
