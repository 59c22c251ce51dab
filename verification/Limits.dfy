/** What the code does not give: runs that show it, beside the theorems that say when the property holds. */
module Limits {
  import opened Domain
  import opened Tables
  import opened CaseStore
  import opened Outbox
  import opened Refunds
  import opened Returns
  import opened Provider
  import opened Confirmation
  import opened Worker
  import opened Cells
  import opened Ledger
  import opened Settlement
  import opened Protocol
  import opened Safety
  import opened Exclusive
  import opened Confluence
  import opened Leases
  import opened NoBlindRetry
  import opened Tenancy
  import opened Outlook
  import opened Scenes

  /* Two workers on one event. */

  /** Two workers wait for their calls about one event; that of `s` has been answered, that of `t` refused. */
  predicate RefusalBehindReply(settings: Settings, w: World, s: nat, t: nat) {
    && s != t && WaitsOn(w, s) && WaitsOn(w, t) && w.sessions[s].e == w.sessions[t].e
    && w.calls[w.sessions[s].stage.call].phase.Answered?
    && w.calls[w.sessions[t].stage.call].phase.Refused?
    && w.db.events[w.sessions[s].e].attempts < settings.maxDispatchAttempts
  }

  /** It does happen whenever leases overlap: of two workers waiting on one event, one with a reply and
      one refused, the second undoes the status the first has just confirmed, and queues the event
      again. The case stays refunded. */
  lemma LateRefusalOverwrites(config: Config, w: World, s: nat, t: nat) returns (w1: World, w2: World)
    requires Inv(config.settings, w) && RefusalBehindReply(config.settings, w, s, t)
    ensures Next(config, w, Settle(s, Replied)) == Some(w1)
    ensures Next(config, w1, Settle(t, RepliedRefused)) == Some(w2)
    ensures var e := w.sessions[s].e;
            var c := w.db.events[e].caseId;
            && c in w1.db.attempts && w1.db.attempts[c].status == Succeeded
            && c in w2.db.attempts && w2.db.attempts[c].status == AttemptStatus.Failed
            && c in w1.db.cases && Final(w1.db.cases[c].status) && w2.db.cases == w1.db.cases
            && e in w2.db.events && w2.db.events[e].status == Pending
  {
    SettlersCan(config.settings, w, s);
    var db1 := ReplySettles(config.settings, w, s);
    w1 := w.(db := db1, sessions := w.sessions - {s});
    SettleTaken(config, w, s, Replied, db1);
    StillWaits(w, s, t, w1);
    w2 := RefusalSettles(config, w1, t);
  }

  lemma SettleTaken(config: Config, w: World, s: nat, outcome: Outcome, db1: Db)
    requires WaitsOn(w, s) && Settled(config.settings, w, s, outcome) == Ok(db1)
    ensures Next(config, w, Settle(s, outcome)) == Some(w.(db := db1, sessions := w.sessions - {s}))
  {
    assert StepSettle(config.settings, w, s, outcome) == Some(w.(db := db1, sessions := w.sessions - {s}));
  }

  lemma StillWaits(w: World, s: nat, t: nat, w1: World)
    requires WaitsOn(w, s) && WaitsOn(w, t) && s != t && w.sessions[s].e == w.sessions[t].e
    requires w1 == w.(db := w1.db, sessions := w.sessions - {s})
    requires w1.db.events == w.db.events[w.sessions[s].e := MarkDone(w.db.events[w.sessions[s].e])]
    requires w.db.events[w.sessions[s].e].caseId in w1.db.attempts
    ensures WaitsOn(w1, t) && w1.sessions[t] == w.sessions[t]
    ensures w1.db.events[w1.sessions[t].e].attempts == w.db.events[w.sessions[s].e].attempts
    ensures w1.db.events[w1.sessions[t].e].caseId == w.db.events[w.sessions[s].e].caseId
  {
  }

  lemma ReplySettles(settings: Settings, w: World, s: nat) returns (db1: Db)
    requires DbInv(settings, w.db) && CanSettle(settings, w, s)
    requires w.calls[w.sessions[s].stage.call].phase.Answered?
    ensures Settled(settings, w, s, Replied) == Ok(db1)
    ensures var e := w.sessions[s].e;
            var c := w.db.events[e].caseId;
            && c in db1.attempts && db1.attempts[c].status == Succeeded
            && c in db1.cases && Final(db1.cases[c].status)
            && db1.events == w.db.events[e := MarkDone(w.db.events[e])]
  {
    db1 := ReplyOutcome(settings, w.db, w.sessions[s].e, w.calls[w.sessions[s].stage.call].phase.reply);
  }

  lemma ReplyOutcome(settings: Settings, db: Db, e: EventId, row: ProviderRow) returns (db1: Db)
    requires DbInv(settings, db) && e in db.events && db.events[e].caseId in db.attempts
    requires RowMatches(row, db.attempts[db.events[e].caseId])
    ensures SettleReply(db, e, row) == Ok(db1)
    ensures var c := db.events[e].caseId;
            && c in db1.attempts && db1.attempts[c].status == Succeeded
            && c in db1.cases && Final(db1.cases[c].status)
            && db1.events == db.events[e := MarkDone(db.events[e])]
  {
    var c := db.events[e].caseId;
    AcceptedReply(settings, db, db, c, row, e);
    db1 := SettleReply(db, e, row).value;
    AttemptOfEvent(settings, db, e);
    ReplyShape(settings, db, e, row, db1);
    assert CellOf(db1, c).attempt.Some?;
  }

  lemma RefusalSettles(config: Config, w: World, s: nat) returns (w1: World)
    requires WaitsOn(w, s) && w.calls[w.sessions[s].stage.call].phase.Refused?
    requires w.db.events[w.sessions[s].e].attempts < config.settings.maxDispatchAttempts
    ensures Next(config, w, Settle(s, RepliedRefused)) == Some(w1)
    ensures var e := w.sessions[s].e;
            var c := w.db.events[e].caseId;
            && c in w1.db.attempts && w1.db.attempts[c].status == AttemptStatus.Failed && w1.db.cases == w.db.cases
            && e in w1.db.events && w1.db.events[e].status == Pending
  {
    w1 := StepSettle(config.settings, w, s, RepliedRefused).value;
  }

  /* The runs. */

  /** Leases of 30 seconds and `m` dispatches per event. */
  function Sharing(m: int): Config {
    Config(Settings(50_000, m, 30), false)
  }

  function Exclusively(m: int): Config {
    Config(Settings(50_000, m, 30), true)
  }

  /** The run goes on from `start` by these steps. */
  predicate GoesOn(start: Run, run: Run, steps: seq<Step>) {
    && |start.worlds| == |start.steps| + 1 && |run.worlds| == |run.steps| + 1
    && start.worlds <= run.worlds && run.steps == start.steps + steps
  }

  /** The attempt and the case of the runs have these statuses. */
  predicate Stands(w: World, attempt: AttemptStatus, status: ReturnStatus) {
    AttemptIs(CellOf(w.db, CASE), attempt) && CaseIs(CellOf(w.db, CASE), status)
  }

  const TAKEOVER := [Claim(0, 5), Begin(0), Tick(31 * SECOND), Claim(1, 5), Begin(1)]

  /** The event a second worker has taken over after the lease of the first ran out. */
  const TAKEN_OVER := Event(ORG, RefundDispatch, CASE, Processing, 2, 0, Some(61 * SECOND), 0)

  const SENT := Call(RefundRequest(RefundV1(CASE), 900, "EUR", CASE), Sent)

  function Dispatched(n: nat): Attempt {
    PLANNED.(status := Dispatching, dispatchCount := n)
  }

  const TWO_AT_WORK := Scene(Row(RefundPending, 6, Some(900)), Dispatched(2), map[5 := TAKEN_OVER], map[], [SENT, SENT],
                             map[0 := Session(5, Waiting(0)), 1 := Session(5, Waiting(1))], map[], map[], {},
                             31 * SECOND)

  /** Two workers have sent a request for the case, as the lease of the first was too short. */
  lemma TwoAtWork(m: int) returns (start: Run, run: Run)
    ensures Ends(Sharing(m), run, TWO_AT_WORK) && GoesOn(start, run, TAKEOVER)
  {
    var config := Sharing(m);
    var p: Scene;
    start, p := PlannedRun(config);
    run, p := Claims(config, start, p, 0, 5);
    run, p := SendsRequest(config, run, p, 0);
    run, p := Waits(config, run, p, 31 * SECOND);
    run, p := Claims(config, run, p, 1, 5);
    run, p := SendsRequest(config, run, p, 1);
    assert p == TWO_AT_WORK;
    assert run.steps == start.steps + TAKEOVER;
  }

  lemma ShownStands(w: World, p: Scene)
    requires Shows(w, p)
    ensures Stands(w, p.attempt.status, p.row.status)
  {
  }

  lemma GoesOnTwice(start: Run, run: Run, first: seq<Step>, run': Run, second: seq<Step>)
    requires GoesOn(start, run, first) && GoesOn(run, run', second)
    ensures GoesOn(start, run', first + second)
  {
    assert run'.steps == start.steps + (first + second);
  }

  /* A confirmed status is lost to a refusal. */

  const REPLY_AND_REFUSAL :=
    [ProviderStores(0, "rf_1"), ProviderRefuses(1), Settle(0, Replied), Settle(1, RepliedRefused)]

  /** After the reply and the refusal have been settled, in this order. */
  const OVERWRITTEN := Scene(
    Row(Refunded, 7, Some(900)),
    Dispatched(2).(status := AttemptStatus.Failed, providerRef := Some("rf_1"),
                   evidence := Some(EvidenceOf(STORED, ""))),
    map[5 := Rescheduled(MarkDone(TAKEN_OVER), 31 * SECOND, 2)], map[RefundV1(CASE) := STORED],
    [SENT.(phase := Answered(STORED)), SENT.(phase := Refused)], map[], map[], map[], {}, 31 * SECOND)

  const ANSWERED_AND_REFUSED := TWO_AT_WORK.(
    refunds := map[RefundV1(CASE) := STORED],
    calls := [SENT.(phase := Answered(STORED)), SENT.(phase := Refused)])

  lemma OneStoredOneRefused(run: Run) returns (run': Run)
    requires Ends(Sharing(3), run, TWO_AT_WORK)
    ensures Ends(Sharing(3), run', ANSWERED_AND_REFUSED) && GoesOn(run, run', REPLY_AND_REFUSAL[..2])
    ensures RefusalBehindReply(Sharing(3).settings, Last(run'), 0, 1)
  {
    var config := Sharing(3);
    var p: Scene;
    run', p := Stores(config, run, TWO_AT_WORK, 0);
    run', p := Refuses(config, run', p, 1);
    assert p == ANSWERED_AND_REFUSED;
    assert run'.steps == run.steps + REPLY_AND_REFUSAL[..2];
  }

  lemma ReplyThenRefusal(run: Run) returns (run': Run)
    requires Ends(Sharing(3), run, ANSWERED_AND_REFUSED)
    ensures Ends(Sharing(3), run', OVERWRITTEN) && GoesOn(run, run', REPLY_AND_REFUSAL[2..])
    ensures Stands(run'.worlds[|run.steps| + 1], Succeeded, Refunded)
    ensures Stands(run'.worlds[|run.steps| + 2], AttemptStatus.Failed, Refunded)
  {
    var config := Sharing(3);
    var p: Scene;
    run', p := IsConfirmed(config, run, ANSWERED_AND_REFUSED, 0);
    ShownStands(Last(run'), p);
    run', p := IsRefused(config, run', p, 1);
    ShownStands(Last(run'), p);
    assert Backoff(2) == 2;
    assert p == OVERWRITTEN;
    assert run'.steps == run.steps + REPLY_AND_REFUSAL[2..];
  }

  const THIRD_TIMES_OUT := [Tick(33 * SECOND), Claim(2, 5), Begin(2), Settle(2, TimedOut)]

  lemma ThirdTimesOut(run: Run) returns (run': Run)
    requires Ends(Sharing(3), run, OVERWRITTEN)
    ensures IsRun(Sharing(3), run') && GoesOn(run, run', THIRD_TIMES_OUT)
    ensures Stands(Last(run'), Unknown, Refunded)
  {
    var config := Sharing(3);
    var p: Scene;
    run', p := Waits(config, run, OVERWRITTEN, 33 * SECOND);
    run', p := Claims(config, run', p, 2, 5);
    run', p := SendsRequest(config, run', p, 2);
    run', p := TimesOut(config, run', p, 2);
    ShownStands(Last(run'), p);
    assert run'.steps == run.steps + THIRD_TIMES_OUT;
  }

  /** A run in which a late refusal marks a confirmed attempt FAILED and queues its event again, and a
      timeout then marks it UNKNOWN, while the case stays refunded. */
  lemma RefusalOverwritesSuccess() returns (start: Run, run: Run)
    ensures IsRun(Sharing(3), run) && GoesOn(start, run, TAKEOVER + REPLY_AND_REFUSAL + THIRD_TIMES_OUT)
    ensures var n := |start.steps|;
            && RefusalBehindReply(Sharing(3).settings, run.worlds[n + 7], 0, 1)
            && Stands(run.worlds[n + 8], Succeeded, Refunded)
            && Stands(run.worlds[n + 9], AttemptStatus.Failed, Refunded)
            && Stands(run.worlds[n + 13], Unknown, Refunded)
  {
    var run1, run2: Run;
    start, run1 := TwoAtWork(3);
    var answered := OneStoredOneRefused(run1);
    run2 := ReplyThenRefusal(answered);
    run := ThirdTimesOut(run2);
    GoesOnTwice(run1, answered, REPLY_AND_REFUSAL[..2], run2, REPLY_AND_REFUSAL[2..]);
    assert REPLY_AND_REFUSAL[..2] + REPLY_AND_REFUSAL[2..] == REPLY_AND_REFUSAL;
    GoesOnTwice(start, run1, TAKEOVER, run2, REPLY_AND_REFUSAL);
    GoesOnTwice(start, run2, TAKEOVER + REPLY_AND_REFUSAL, run, THIRD_TIMES_OUT);
  }

  /* An unknown outcome is retried blindly. */

  const TIMEOUT_AND_REFUSAL := [Settle(0, TimedOut), ProviderRefuses(1), Settle(1, RepliedRefused)]

  const REQUEUED := Scene(
    Row(RefundUnknown, 7, Some(900)), Dispatched(2).(status := AttemptStatus.Failed),
    map[5 := Rescheduled(MarkDone(TAKEN_OVER), 31 * SECOND, 2)], map[], [SENT, SENT.(phase := Refused)],
    map[], map[], map[], {}, 31 * SECOND)

  lemma TimeoutThenRefusal(run: Run) returns (run': Run)
    requires Ends(Sharing(3), run, TWO_AT_WORK)
    ensures Ends(Sharing(3), run', REQUEUED) && GoesOn(run, run', TIMEOUT_AND_REFUSAL)
    ensures BecomesUnknown(run', |run.steps|, CASE)
  {
    var config := Sharing(3);
    var p: Scene;
    ShownStands(Last(run), TWO_AT_WORK);
    run', p := TimesOut(config, run, TWO_AT_WORK, 0);
    ShownStands(Last(run'), p);
    run', p := Refuses(config, run', p, 1);
    run', p := IsRefused(config, run', p, 1);
    assert Backoff(2) == 2;
    assert p == REQUEUED;
    assert run'.steps == run.steps + TIMEOUT_AND_REFUSAL;
  }

  const THIRD_DISPATCHES := [Tick(33 * SECOND), Claim(2, 5), Begin(2)]

  lemma ThirdDispatches(run: Run) returns (run': Run)
    requires Ends(Sharing(3), run, REQUEUED)
    ensures IsRun(Sharing(3), run') && GoesOn(run, run', THIRD_DISPATCHES)
    ensures DispatchesAt(run', |run.steps| + 2, CASE)
  {
    var config := Sharing(3);
    var p: Scene;
    run', p := Waits(config, run, REQUEUED, 33 * SECOND);
    run', p := Claims(config, run', p, 2, 5);
    run', p := SendsRequest(config, run', p, 2);
    assert run'.steps == run.steps + THIRD_DISPATCHES;
  }

  /** A run in which one worker has recorded UNKNOWN, and a second one on the same event, whose call is
      refused, queues the event again: it is dispatched with no lookup and no human decision in between. */
  lemma OverlapRetriesBlindly() returns (start: Run, run: Run)
    ensures IsRun(Sharing(3), run) && GoesOn(start, run, TAKEOVER + TIMEOUT_AND_REFUSAL + THIRD_DISPATCHES)
    ensures BecomesUnknown(run, |start.steps| + 5, CASE) && DispatchesAt(run, |start.steps| + 10, CASE)
  {
    var run1, run2: Run;
    start, run1 := TwoAtWork(3);
    run2 := TimeoutThenRefusal(run1);
    run := ThirdDispatches(run2);
    GoesOnTwice(start, run1, TAKEOVER, run2, TIMEOUT_AND_REFUSAL);
    GoesOnTwice(start, run2, TAKEOVER + TIMEOUT_AND_REFUSAL, run, THIRD_DISPATCHES);
  }

  /* FAILED does not mean that the provider holds nothing. */

  const CRASH_AND_REFUSAL :=
    [Claim(0, 5), Begin(0), ProviderStores(0, "rf_1"), Crash(0), Tick(31 * SECOND), Claim(1, 5), Begin(1),
     ProviderRefuses(1), Settle(1, RepliedRefused)]

  /** A run, even with exclusive leases, in which the first request is stored and its worker crashes, and
      the second one is refused: the attempt is FAILED while the provider holds the refund. */
  lemma FailedWithRefundStored() returns (start: Run, run: Run)
    ensures IsRun(Exclusively(3), run) && GoesOn(start, run, CRASH_AND_REFUSAL)
    ensures Stands(Last(run), AttemptStatus.Failed, RefundPending)
    ensures Last(run).refunds == map[RefundV1(CASE) := STORED]
  {
    var config := Exclusively(3);
    var p: Scene;
    start, p := PlannedRun(config);
    run, p := FirstCrashes(start, p);
    run, p := SecondIsRefused(run, p);
    ShownStands(Last(run), p);
    assert run.steps == start.steps + CRASH_AND_REFUSAL;
  }

  const CRASHED := Scene(
    Row(RefundPending, 6, Some(900)), Dispatched(1),
    map[5 := TAKEN_OVER.(attempts := 1, leaseUntil := Some(30 * SECOND))],
    map[RefundV1(CASE) := STORED], [SENT.(phase := Answered(STORED))], map[], map[], map[], {}, 0)

  lemma FirstCrashes(run: Run, p: Scene) returns (run': Run, p': Scene)
    requires Ends(Exclusively(3), run, p)
    requires p == Scene(Row(RefundPending, 6, Some(900)), PLANNED, map[5 := NewEvent(ORG, RefundDispatch, CASE, 0)],
                        map[], [], map[], map[], map[], {}, 0)
    ensures p' == CRASHED && Ends(Exclusively(3), run', p') && GoesOn(run, run', CRASH_AND_REFUSAL[..4])
  {
    var config := Exclusively(3);
    run', p' := Claims(config, run, p, 0, 5);
    run', p' := SendsRequest(config, run', p', 0);
    run', p' := Stores(config, run', p', 0);
    run', p' := Crashes(config, run', p', 0);
    assert p' == CRASHED;
    assert run'.steps == run.steps + CRASH_AND_REFUSAL[..4];
  }

  const CRASHED_TAKEN_OVER := Scene(
    Row(RefundPending, 6, Some(900)), Dispatched(1), map[5 := TAKEN_OVER], map[RefundV1(CASE) := STORED],
    [SENT.(phase := Answered(STORED))], map[1 := Session(5, ClaimHeld)], map[], map[], {}, 31 * SECOND)

  lemma SecondTakesOver(run: Run) returns (run': Run)
    requires Ends(Exclusively(3), run, CRASHED)
    ensures Ends(Exclusively(3), run', CRASHED_TAKEN_OVER) && GoesOn(run, run', CRASH_AND_REFUSAL[4..6])
  {
    var p: Scene;
    run', p := Waits(Exclusively(3), run, CRASHED, 31 * SECOND);
    run', p := Claims(Exclusively(3), run', p, 1, 5);
    assert p == CRASHED_TAKEN_OVER;
    assert run'.steps == run.steps + CRASH_AND_REFUSAL[4..6];
  }

  lemma SecondIsRefused(run: Run, p: Scene) returns (run': Run, p': Scene)
    requires p == CRASHED && Ends(Exclusively(3), run, p)
    ensures p'.attempt.status == AttemptStatus.Failed && p'.row == p.row && p'.refunds == p.refunds
    ensures Ends(Exclusively(3), run', p') && GoesOn(run, run', CRASH_AND_REFUSAL[4..])
  {
    var config := Exclusively(3);
    run' := SecondTakesOver(run);
    run', p' := SendsRequest(config, run', CRASHED_TAKEN_OVER, 1);
    run', p' := Refuses(config, run', p', 1);
    run', p' := IsRefused(config, run', p', 1);
    assert run'.steps == run.steps + CRASH_AND_REFUSAL[4..];
  }

  /* A confirmed status is lost to a lookup. */

  const GIVEN_UP := [ProviderRefuses(0), Settle(0, RepliedRefused)]

  /** The refusal of the first call was the last one allowed; the second call is still under way. */
  const UP_TO_FINANCE := TWO_AT_WORK.(
    row := Row(NeedsReconciliation, 7, Some(900)), attempt := Dispatched(2).(status := AttemptStatus.Failed),
    events := map[5 := DeadLetter(TAKEN_OVER)], calls := [SENT.(phase := Refused), SENT],
    sessions := map[1 := Session(5, Waiting(1))])

  lemma FirstGivesUp(run: Run) returns (run': Run)
    requires Ends(Sharing(2), run, TWO_AT_WORK)
    ensures Ends(Sharing(2), run', UP_TO_FINANCE) && GoesOn(run, run', GIVEN_UP)
  {
    var config := Sharing(2);
    var p: Scene;
    run', p := Refuses(config, run, TWO_AT_WORK, 0);
    run', p := GivesUp(config, run', p, 0);
    assert p == UP_TO_FINANCE;
    assert run'.steps == run.steps + GIVEN_UP;
  }

  const UNKNOWN_TO_FINANCE := UP_TO_FINANCE.(
    attempt := Dispatched(2).(status := Unknown), events := map[5 := MarkDone(TAKEN_OVER)], sessions := map[])

  lemma SecondTimesOut(run: Run, p: Scene) returns (run': Run, p': Scene)
    requires Ends(Sharing(2), run, p) && p == UP_TO_FINANCE.(txns := p.txns)
    ensures p' == UNKNOWN_TO_FINANCE.(txns := p.txns)
    ensures Ends(Sharing(2), run', p') && OneMore(run, Settle(1, TimedOut), run')
    ensures BecomesUnknown(run', |run.steps|, CASE)
  {
    ShownStands(Last(run), p);
    run', p' := TimesOut(Sharing(2), run, p, 1);
    ShownStands(Last(run'), p');
    assert p' == UNKNOWN_TO_FINANCE.(txns := p.txns);
  }

  const ASKED_IN_VAIN :=
    [Settle(1, TimedOut), LookupReadCase(0, ADMIN, CASE), LookupReadAttempt(0), LookupAsk(0)]

  const KNOWING_NOTHING := UNKNOWN_TO_FINANCE.(
    lookups := map[0 := Lookup(ADMIN, CASE, UNKNOWN_TO_FINANCE.row, Some(UNKNOWN_TO_FINANCE.attempt), Absent)])

  lemma AskedInVain(run: Run) returns (run': Run)
    requires Ends(Sharing(2), run, UP_TO_FINANCE)
    ensures Ends(Sharing(2), run', KNOWING_NOTHING) && GoesOn(run, run', ASKED_IN_VAIN)
  {
    var config := Sharing(2);
    var p: Scene;
    run', p := SecondTimesOut(run, UP_TO_FINANCE);
    assert p == UNKNOWN_TO_FINANCE;
    run', p := LooksAtCase(config, run', UNKNOWN_TO_FINANCE, 0);
    run', p := LooksAtAttempt(config, run', p, 0);
    run', p := AsksInVain(config, run', p, 0);
    assert p == KNOWING_NOTHING;
    assert run'.steps == run.steps + ASKED_IN_VAIN;
  }

  const LATE_ABSENCE := [ProviderStores(1, "rf_1"), Webhook(RefundV1(CASE), "ev_1"), LookupCommit(0)]

  lemma LateAbsence(run: Run) returns (run': Run)
    requires Ends(Sharing(2), run, KNOWING_NOTHING)
    ensures IsRun(Sharing(2), run') && GoesOn(run, run', LATE_ABSENCE)
    ensures Stands(run'.worlds[|run.steps| + 2], Succeeded, Refunded)
    ensures Stands(run'.worlds[|run.steps| + 3], AttemptStatus.Failed, Refunded)
  {
    var config := Sharing(2);
    var p: Scene;
    run', p := Stores(config, run, KNOWING_NOTHING, 1);
    run', p := IsDelivered(config, run', p, "ev_1");
    ShownStands(Last(run'), p);
    run', p := CommitsOldAbsence(config, run', p, 0);
    ShownStands(Last(run'), p);
    assert run'.steps == run.steps + LATE_ABSENCE;
  }

  /** A run in which a webhook confirms the refund while a lookup is under way that has found nothing: its
      commit marks the attempt FAILED, unguarded, as the lookup has nothing to move in the case. */
  lemma LookupOverwritesSuccess() returns (start: Run, run: Run)
    ensures IsRun(Sharing(2), run) && GoesOn(start, run, TAKEOVER + GIVEN_UP + ASKED_IN_VAIN + LATE_ABSENCE)
    ensures var n := |start.steps|;
            && Stands(run.worlds[n + 13], Succeeded, Refunded)
            && Stands(run.worlds[n + 14], AttemptStatus.Failed, Refunded)
  {
    var run1, run2, run3: Run;
    start, run1 := TwoAtWork(2);
    run2 := FirstGivesUp(run1);
    run3 := AskedInVain(run2);
    run := LateAbsence(run3);
    GoesOnTwice(start, run1, TAKEOVER, run2, GIVEN_UP);
    GoesOnTwice(start, run2, TAKEOVER + GIVEN_UP, run3, ASKED_IN_VAIN);
    GoesOnTwice(start, run3, TAKEOVER + GIVEN_UP + ASKED_IN_VAIN, run, LATE_ABSENCE);
  }

  /* A retry on an attempt read earlier. */

  const OLD_RETRY :=
    [TxnRead(0, ADMIN, RetryOf(UP_TO_FINANCE.row)), TxnReadAttempt(0), Settle(1, TimedOut), TxnCommit(0, 6)]

  const SECOND_EVENT := NewEvent(ORG, RefundDispatch, CASE, 31 * SECOND)

  const RETRIED := UNKNOWN_TO_FINANCE.(
    row := Row(RefundPending, 8, Some(900)), attempt := Dispatched(2).(status := Planned),
    events := map[5 := MarkDone(TAKEN_OVER), 6 := SECOND_EVENT])

  lemma OldRetry(run: Run) returns (run': Run)
    requires Ends(Sharing(2), run, UP_TO_FINANCE)
    ensures Ends(Sharing(2), run', RETRIED) && GoesOn(run, run', OLD_RETRY)
    ensures BecomesUnknown(run', |run.steps| + 2, CASE)
  {
    var config := Sharing(2);
    var p: Scene;
    run', p := ReadsForRetry(config, run, UP_TO_FINANCE, 0);
    run', p := SecondTimesOut(run', p);
    run', p := RetryGoesAhead(config, run', p, 0, 6);
    assert p == RETRIED;
    assert run'.steps == run.steps + OLD_RETRY;
  }

  const DISPATCHED_AGAIN := [Claim(2, 6), Begin(2)]

  lemma DispatchedAgain(run: Run) returns (run': Run)
    requires Ends(Sharing(2), run, RETRIED)
    ensures IsRun(Sharing(2), run') && GoesOn(run, run', DISPATCHED_AGAIN)
    ensures DispatchesAt(run', |run.steps| + 1, CASE)
  {
    var config := Sharing(2);
    var p: Scene;
    run', p := Claims(config, run, RETRIED, 2, 6);
    run', p := SendsRequest(config, run', p, 2);
    assert run'.steps == run.steps + DISPATCHED_AGAIN;
  }

  /** A run in which finance retries a failed refund whose attempt becomes unknown between the reads of
      the retry and its commit: it is dispatched again and the provider has not been asked. */
  lemma OldReadRetriesBlindly() returns (start: Run, run: Run)
    ensures IsRun(Sharing(2), run) && GoesOn(start, run, TAKEOVER + GIVEN_UP + OLD_RETRY + DISPATCHED_AGAIN)
    ensures BecomesUnknown(run, |start.steps| + 9, CASE) && DispatchesAt(run, |start.steps| + 12, CASE)
  {
    var run1, run2, run3: Run;
    start, run1 := TwoAtWork(2);
    run2 := FirstGivesUp(run1);
    run3 := OldRetry(run2);
    run := DispatchedAgain(run3);
    GoesOnTwice(start, run1, TAKEOVER, run2, GIVEN_UP);
    GoesOnTwice(start, run2, TAKEOVER + GIVEN_UP, run3, OLD_RETRY);
    GoesOnTwice(start, run3, TAKEOVER + GIVEN_UP + OLD_RETRY, run, DISPATCHED_AGAIN);
  }

  /* A retry that is offered and refused. */

  const REFUSED_ONCE :=
    [Claim(0, 5), Begin(0), ProviderRefuses(0), Settle(0, RepliedRefused), LookupReadCase(0, ADMIN, CASE)]

  const FIRST_CLAIM := Event(ORG, RefundDispatch, CASE, Processing, 1, 0, Some(30 * SECOND), 0)

  /** The one dispatch allowed has been refused, and a lookup has read the case. */
  const READ_BY_LOOKUP := Scene(
    Row(NeedsReconciliation, 7, Some(900)), Dispatched(1).(status := AttemptStatus.Failed),
    map[5 := DeadLetter(FIRST_CLAIM)], map[], [SENT.(phase := Refused)], map[], map[],
    map[0 := Lookup(ADMIN, CASE, Row(NeedsReconciliation, 7, Some(900)), None, NotAsked)], {}, 0)

  lemma RefusedOnce() returns (start: Run, run: Run)
    ensures Ends(Exclusively(1), run, READ_BY_LOOKUP) && GoesOn(start, run, REFUSED_ONCE)
  {
    var config := Exclusively(1);
    var p: Scene;
    start, p := PlannedRun(config);
    run, p := Claims(config, start, p, 0, 5);
    run, p := SendsRequest(config, run, p, 0);
    run, p := Refuses(config, run, p, 0);
    run, p := GivesUp(config, run, p, 0);
    run, p := LooksAtCase(config, run, p, 0);
    assert p == READ_BY_LOOKUP;
    assert run.steps == start.steps + REFUSED_ONCE;
  }

  const RETRY_IN_BETWEEN := [TxnRead(0, ADMIN, RetryOf(READ_BY_LOOKUP.row)), TxnReadAttempt(0), TxnCommit(0, 6)]

  const PLANNED_AGAIN := READ_BY_LOOKUP.(
    row := Row(RefundPending, 8, Some(900)), attempt := Dispatched(1).(status := Planned),
    events := map[5 := DeadLetter(FIRST_CLAIM), 6 := NewEvent(ORG, RefundDispatch, CASE, 0)])

  lemma RetryInBetween(run: Run) returns (run': Run)
    requires Ends(Exclusively(1), run, READ_BY_LOOKUP)
    ensures Ends(Exclusively(1), run', PLANNED_AGAIN) && GoesOn(run, run', RETRY_IN_BETWEEN)
  {
    var config := Exclusively(1);
    var p: Scene;
    run', p := ReadsForRetry(config, run, READ_BY_LOOKUP, 0);
    run', p := RetryGoesAhead(config, run', p, 0, 6);
    assert p == PLANNED_AGAIN;
    assert run'.steps == run.steps + RETRY_IN_BETWEEN;
  }

  const SENT_IN_BETWEEN := [Claim(1, 6), Begin(1)]

  const SENT_AGAIN := PLANNED_AGAIN.(
    attempt := Dispatched(2), events := map[5 := DeadLetter(FIRST_CLAIM), 6 := FIRST_CLAIM],
    calls := [SENT.(phase := Refused), SENT], sessions := map[1 := Session(6, Waiting(1))])

  lemma SentInBetween(run: Run) returns (run': Run)
    requires Ends(Exclusively(1), run, PLANNED_AGAIN)
    ensures Ends(Exclusively(1), run', SENT_AGAIN) && GoesOn(run, run', SENT_IN_BETWEEN)
  {
    var p: Scene;
    run', p := Claims(Exclusively(1), run, PLANNED_AGAIN, 1, 6);
    run', p := SendsRequest(Exclusively(1), run', p, 1);
    assert p == SENT_AGAIN;
    assert run'.steps == run.steps + SENT_IN_BETWEEN;
  }

  const LOST_IN_BETWEEN := [RequestLost(1), Settle(1, TimedOut)]

  const UNKNOWN_AGAIN := READ_BY_LOOKUP.(
    row := Row(RefundUnknown, 9, Some(900)), attempt := Dispatched(2).(status := Unknown),
    events := map[5 := DeadLetter(FIRST_CLAIM), 6 := MarkDone(FIRST_CLAIM)],
    calls := [SENT.(phase := Refused), SENT.(phase := Lost)])

  lemma LostInBetween(run: Run) returns (run': Run)
    requires Ends(Exclusively(1), run, SENT_AGAIN)
    ensures Ends(Exclusively(1), run', UNKNOWN_AGAIN) && GoesOn(run, run', LOST_IN_BETWEEN)
  {
    var config := Exclusively(1);
    var p: Scene;
    run', p := Loses(config, run, SENT_AGAIN, 1);
    run', p := TimesOut(config, run', p, 1);
    assert p == UNKNOWN_AGAIN;
    assert run'.steps == run.steps + LOST_IN_BETWEEN;
  }

  const OUTDATED_ABSENCE := [LookupReadAttempt(0), LookupAsk(0), LookupCommit(0)]

  lemma OutdatedAbsence(run: Run) returns (run': Run)
    requires Ends(Exclusively(1), run, UNKNOWN_AGAIN)
    ensures IsRun(Exclusively(1), run') && GoesOn(run, run', OUTDATED_ABSENCE)
    ensures Stands(Last(run'), AttemptStatus.Failed, RefundUnknown)
    ensures Visible(Last(run').db, ADMIN, CASE)
  {
    var config := Exclusively(1);
    var p: Scene;
    run', p := LooksAtAttempt(config, run, UNKNOWN_AGAIN, 0);
    run', p := AsksInVain(config, run', p, 0);
    run', p := CommitsOldAbsence(config, run', p, 0);
    ShownStands(Last(run'), p);
    assert run'.steps == run.steps + OUTDATED_ABSENCE;
  }

  /** A run, even with exclusive leases, in which a lookup reads the case, a retry passes and times out,
      and the lookup then reads the unknown attempt and finds nothing: the case stays unknown, its attempt
      is FAILED, and the retry that is offered is refused. */
  lemma OfferedRetryIsRefused(e: EventId) returns (start: Run, run: Run)
    ensures IsRun(Exclusively(1), run)
    ensures GoesOn(start, run, REFUSED_ONCE + RETRY_IN_BETWEEN + SENT_IN_BETWEEN + LOST_IN_BETWEEN + OUTDATED_ABSENCE)
    ensures Stands(Last(run), AttemptStatus.Failed, RefundUnknown)
    ensures CellOffers(CellOf(Last(run).db, CASE), ADMIN, OfferRetryFailedRefund)
    ensures e !in Last(run).db.events ==>
              !Outlook.Accepted(Exclusively(1).settings, Last(run), ADMIN, CASE, OfferRetryFailedRefund, 0, e)
  {
    var run1, run2, run3, run4: Run;
    start, run1 := RefusedOnce();
    run2 := RetryInBetween(run1);
    run3 := SentInBetween(run2);
    run4 := LostInBetween(run3);
    run := OutdatedAbsence(run4);
    GoesOnTwice(start, run1, REFUSED_ONCE, run2, RETRY_IN_BETWEEN);
    GoesOnTwice(start, run2, REFUSED_ONCE + RETRY_IN_BETWEEN, run3, SENT_IN_BETWEEN);
    GoesOnTwice(start, run3, REFUSED_ONCE + RETRY_IN_BETWEEN + SENT_IN_BETWEEN, run4, LOST_IN_BETWEEN);
    GoesOnTwice(start, run4, REFUSED_ONCE + RETRY_IN_BETWEEN + SENT_IN_BETWEEN + LOST_IN_BETWEEN, run,
                OUTDATED_ABSENCE);
    if e !in Last(run).db.events {
      OfferedActionsAreAccepted(Exclusively(1), run, |run.worlds| - 1, ADMIN, CASE, OfferRetryFailedRefund, 0, e);
    }
  }

  /* Not every accepted command is offered. */

  function OfferFor(op: Operation): Offer {
    match op
    case Authorize => OfferAuthorize
    case Receive => OfferReceive
    case Inspect => OfferInspect
    case Reject => OfferReject
    case ApproveRefundOf(_) => OfferApproveRefund
    case RetryFailed => OfferRetryFailedRefund
    case MarkReconciled => OfferMarkReconciled
    case Close => OfferClose
  }

  lemma ApprovalWasOffered(settings: Settings, db: Db, context: Context, c: CaseId, expected: int, amount: int,
                           now: Time, e: EventId)
    requires c in db.cases
    requires ApproveRefund(settings, db, context, c, expected, amount, db.cases[c],
                           RefundApprovals(db.approvals, c), now, e).Ok?
    ensures CellOffers(CellOf(db, c), context, OfferApproveRefund)
  {
    ApproveCases(settings, db, context, c, expected, amount, db.cases[c], RefundApprovals(db.approvals, c), now, e);
  }

  lemma PlainWasOffered(db: Db, context: Context, cmd: Command, now: Time, e: EventId)
    requires cmd.c in db.cases && !cmd.op.ApproveRefundOf? && GatePasses(context, cmd.op)
    requires CommitPlain(db, context, cmd, db.cases[cmd.c], AttemptOf(db, context, cmd.c), now, e).Ok?
    ensures CellOffers(CellOf(db, cmd.c), context, OfferFor(cmd.op))
        <==> !(cmd.op.Reject? && db.cases[cmd.c].status == Requested && context.role == Finance)
  {
  }

  /** An accepted command is one that was offered, except exactly one: finance may reject a case
      that is still only requested, although that is not listed for it. */
  lemma AcceptedExactlyWhenOffered(settings: Settings, db: Db, context: Context, cmd: Command, now: Time, e: EventId)
    requires Exec(settings, db, context, cmd, now, e).Ok?
    ensures cmd.c in db.cases
    ensures CellOffers(CellOf(db, cmd.c), context, OfferFor(cmd.op))
        <==> !(cmd.op.Reject? && db.cases[cmd.c].status == Requested && context.role == Finance)
  {
    if cmd.op.ApproveRefundOf? {
      ApprovalWasOffered(settings, db, context, cmd.c, cmd.expected, cmd.op.amount, now, e);
    } else {
      PlainWasOffered(db, context, cmd, now, e);
    }
  }
}
