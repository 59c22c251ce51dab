/** Runs in which a lookup commits an answer that the provider gave before the outcome of the refund became
    unknown once more: the refund is dispatched again although it has been stored. */
module OldAnswers {
  import opened Domain
  import opened Tables
  import opened Outbox
  import opened Confirmation
  import opened Protocol
  import opened NoBlindRetry
  import opened Attempts
  import opened Overlap
  import opened Scenes
  import opened Limits

  /* With nobody deciding in between. */

  const THIRD_AT_WORK := [Tick(62 * SECOND), Claim(2, 5), Begin(2)]

  /** The event as the third worker has claimed it. */
  const THRICE := Event(ORG, RefundDispatch, CASE, Processing, 3, 0, Some(92 * SECOND), 0)

  const THREE_AT_WORK := Scene(
    Row(RefundPending, 6, Some(900)), Dispatched(3), map[5 := THRICE], map[], [SENT, SENT, SENT],
    map[0 := Session(5, Waiting(0)), 1 := Session(5, Waiting(1)), 2 := Session(5, Waiting(2))], map[], map[], {},
    62 * SECOND)

  lemma ThirdAtWork(run: Run) returns (run': Run)
    requires Ends(Sharing(2), run, TWO_AT_WORK)
    ensures Ends(Sharing(2), run', THREE_AT_WORK) && GoesOn(run, run', THIRD_AT_WORK)
  {
    var config := Sharing(2);
    var p: Scene;
    run', p := Waits(config, run, TWO_AT_WORK, 62 * SECOND);
    run', p := Claims(config, run', p, 2, 5);
    run', p := SendsRequest(config, run', p, 2);
    assert p == THREE_AT_WORK;
    assert run'.steps == run.steps + THIRD_AT_WORK;
  }

  /** The first call was refused, and it was the last one allowed. */
  const FIRST_REFUSED := Scene(
    Row(NeedsReconciliation, 7, Some(900)), Dispatched(3).(status := AttemptStatus.Failed),
    map[5 := DeadLetter(THRICE)], map[], [SENT.(phase := Refused), SENT, SENT],
    map[1 := Session(5, Waiting(1)), 2 := Session(5, Waiting(2))], map[], map[], {}, 62 * SECOND)

  lemma FirstRefused(run: Run) returns (run': Run)
    requires Ends(Sharing(2), run, THREE_AT_WORK)
    ensures Ends(Sharing(2), run', FIRST_REFUSED) && GoesOn(run, run', GIVEN_UP)
  {
    var p: Scene;
    run', p := Refuses(Sharing(2), run, THREE_AT_WORK, 0);
    run', p := GivesUp(Sharing(2), run', p, 0);
    assert p == FIRST_REFUSED;
    assert run'.steps == run.steps + GIVEN_UP;
  }

  const READ_AND_TIMED_OUT :=
    [TxnRead(0, ADMIN, RetryOf(FIRST_REFUSED.row)), TxnReadAttempt(0), Settle(1, TimedOut)]

  const FIRST_RETRY := Txn(
    ADMIN, RetryOf(Row(NeedsReconciliation, 7, Some(900))), Row(NeedsReconciliation, 7, Some(900)), None,
    Some(Dispatched(3).(status := AttemptStatus.Failed)))

  /** Finance has read the failed attempt for a retry, and the second call has timed out. */
  const RETRY_PREPARED := Scene(
    Row(NeedsReconciliation, 7, Some(900)), Dispatched(3).(status := Unknown),
    map[5 := MarkDone(THRICE)], map[], [SENT.(phase := Refused), SENT, SENT],
    map[2 := Session(5, Waiting(2))], map[0 := FIRST_RETRY], map[], {}, 62 * SECOND)

  lemma RetryPrepared(run: Run) returns (run': Run)
    requires Ends(Sharing(2), run, FIRST_REFUSED)
    ensures Ends(Sharing(2), run', RETRY_PREPARED) && GoesOn(run, run', READ_AND_TIMED_OUT)
  {
    var p: Scene;
    run', p := ReadsForRetry(Sharing(2), run, FIRST_REFUSED, 0);
    run', p := TimesOut(Sharing(2), run', p, 1);
    assert p == RETRY_PREPARED;
    assert run'.steps == run.steps + READ_AND_TIMED_OUT;
  }

  const ASKED := [LookupReadCase(0, ADMIN, CASE), LookupReadAttempt(0), LookupAsk(0)]

  const OLD_LOOKUP := Lookup(
    ADMIN, CASE, Row(NeedsReconciliation, 7, Some(900)), Some(Dispatched(3).(status := Unknown)), Absent)

  lemma Asked(run: Run) returns (run': Run)
    requires Ends(Sharing(2), run, RETRY_PREPARED)
    ensures Ends(Sharing(2), run', RETRY_PREPARED.(lookups := map[0 := OLD_LOOKUP])) && GoesOn(run, run', ASKED)
  {
    var p: Scene;
    run', p := LooksAtCase(Sharing(2), run, RETRY_PREPARED, 0);
    run', p := LooksAtAttempt(Sharing(2), run', p, 0);
    run', p := AsksInVain(Sharing(2), run', p, 0);
    assert p == RETRY_PREPARED.(lookups := map[0 := OLD_LOOKUP]);
    assert run'.steps == run.steps + ASKED;
  }

  const AT_62_SECONDS := NewEvent(ORG, RefundDispatch, CASE, 62 * SECOND)

  const FIRST_RETRIED := Scene(
    Row(RefundPending, 8, Some(900)), Dispatched(3).(status := Planned),
    map[5 := MarkDone(THRICE), 6 := AT_62_SECONDS], map[], [SENT.(phase := Refused), SENT, SENT],
    map[2 := Session(5, Waiting(2))], map[], map[0 := OLD_LOOKUP], {}, 62 * SECOND)

  lemma FirstRetried(run: Run) returns (run': Run)
    requires Ends(Sharing(2), run, RETRY_PREPARED.(lookups := map[0 := OLD_LOOKUP]))
    ensures Ends(Sharing(2), run', FIRST_RETRIED) && OneMore(run, TxnCommit(0, 6), run')
  {
    var p: Scene;
    run', p := RetryGoesAhead(Sharing(2), run, RETRY_PREPARED.(lookups := map[0 := OLD_LOOKUP]), 0, 6);
    assert p == FIRST_RETRIED;
  }

  const RETRY_AND_REFUSAL := [TxnCommit(0, 6), ProviderRefuses(2), Settle(2, RepliedRefused)]

  /** The retry has queued event 6, and the third call was refused. */
  const THIRD_REFUSED := Scene(
    Row(NeedsReconciliation, 9, Some(900)), Dispatched(3).(status := AttemptStatus.Failed),
    map[5 := DeadLetter(THRICE), 6 := AT_62_SECONDS], map[],
    [SENT.(phase := Refused), SENT, SENT.(phase := Refused)], map[], map[], map[0 := OLD_LOOKUP], {}, 62 * SECOND)

  lemma ThirdRefused(run: Run) returns (run': Run)
    requires Ends(Sharing(2), run, RETRY_PREPARED.(lookups := map[0 := OLD_LOOKUP]))
    ensures Ends(Sharing(2), run', THIRD_REFUSED) && GoesOn(run, run', RETRY_AND_REFUSAL)
  {
    var run1 := FirstRetried(run);
    run' := RefusedAgain(run1);
    assert run'.steps == run.steps + RETRY_AND_REFUSAL;
  }

  lemma RefusedAgain(run: Run) returns (run': Run)
    requires Ends(Sharing(2), run, FIRST_RETRIED)
    ensures Ends(Sharing(2), run', THIRD_REFUSED) && GoesOn(run, run', RETRY_AND_REFUSAL[1..])
  {
    var p: Scene;
    run', p := Refuses(Sharing(2), run, FIRST_RETRIED, 2);
    run', p := GivesUp(Sharing(2), run', p, 2);
    assert p == THIRD_REFUSED;
    assert run'.steps == run.steps + RETRY_AND_REFUSAL[1..];
  }

  const SECOND_RETRY := [TxnRead(0, ADMIN, RetryOf(THIRD_REFUSED.row)), TxnReadAttempt(0), TxnCommit(0, 7)]

  /** Two events are live. */
  const TWO_QUEUED := Scene(
    Row(RefundPending, 10, Some(900)), Dispatched(3).(status := Planned),
    map[5 := DeadLetter(THRICE), 6 := AT_62_SECONDS, 7 := AT_62_SECONDS], map[],
    [SENT.(phase := Refused), SENT, SENT.(phase := Refused)], map[], map[], map[0 := OLD_LOOKUP], {}, 62 * SECOND)

  lemma SecondRetry(run: Run) returns (run': Run)
    requires Ends(Sharing(2), run, THIRD_REFUSED)
    ensures Ends(Sharing(2), run', TWO_QUEUED) && GoesOn(run, run', SECOND_RETRY)
  {
    var p: Scene;
    run', p := ReadsForRetry(Sharing(2), run, THIRD_REFUSED, 0);
    run', p := RetryGoesAhead(Sharing(2), run', p, 0, 7);
    assert p == TWO_QUEUED;
    assert run'.steps == run.steps + SECOND_RETRY;
  }

  const SENT_AT_LAST := [Claim(3, 6), Begin(3)]

  const CLAIMED_ONCE := Event(ORG, RefundDispatch, CASE, Processing, 1, 62 * SECOND, Some(92 * SECOND), 62 * SECOND)

  const FOURTH_SENT := Scene(
    Row(RefundPending, 10, Some(900)), Dispatched(4),
    map[5 := DeadLetter(THRICE), 6 := CLAIMED_ONCE, 7 := AT_62_SECONDS], map[],
    [SENT.(phase := Refused), SENT, SENT.(phase := Refused), SENT], map[3 := Session(6, Waiting(3))], map[],
    map[0 := OLD_LOOKUP], {}, 62 * SECOND)

  lemma SentAtLast(run: Run) returns (run': Run)
    requires Ends(Sharing(2), run, TWO_QUEUED)
    ensures Ends(Sharing(2), run', FOURTH_SENT) && GoesOn(run, run', SENT_AT_LAST)
  {
    var p: Scene;
    run', p := Claims(Sharing(2), run, TWO_QUEUED, 3, 6);
    run', p := SendsRequest(Sharing(2), run', p, 3);
    assert p == FOURTH_SENT;
    assert run'.steps == run.steps + SENT_AT_LAST;
  }

  const STORED_AT_LAST := [ProviderStores(3, "rf_1"), Claim(4, 7)]

  /** The fourth call has been stored, and a fifth worker has claimed the other event. */
  const STORED_AND_CLAIMED := Scene(
    Row(RefundPending, 10, Some(900)), Dispatched(4),
    map[5 := DeadLetter(THRICE), 6 := CLAIMED_ONCE, 7 := CLAIMED_ONCE], map[RefundV1(CASE) := STORED],
    [SENT.(phase := Refused), SENT, SENT.(phase := Refused), SENT.(phase := Answered(STORED))],
    map[3 := Session(6, Waiting(3)), 4 := Session(7, ClaimHeld)], map[], map[0 := OLD_LOOKUP], {}, 62 * SECOND)

  lemma StoredAtLast(run: Run) returns (run': Run)
    requires Ends(Sharing(2), run, FOURTH_SENT)
    ensures Ends(Sharing(2), run', STORED_AND_CLAIMED) && GoesOn(run, run', STORED_AT_LAST)
  {
    var p: Scene;
    run', p := Stores(Sharing(2), run, FOURTH_SENT, 3);
    run', p := Claims(Sharing(2), run', p, 4, 7);
    assert p == STORED_AND_CLAIMED;
    assert run'.steps == run.steps + STORED_AT_LAST;
  }

  const STORED_UNKNOWN := Scene(
    Row(RefundUnknown, 11, Some(900)), Dispatched(4).(status := Unknown),
    map[5 := DeadLetter(THRICE), 6 := MarkDone(CLAIMED_ONCE), 7 := CLAIMED_ONCE], map[RefundV1(CASE) := STORED],
    [SENT.(phase := Refused), SENT, SENT.(phase := Refused), SENT.(phase := Answered(STORED))],
    map[4 := Session(7, ClaimHeld)], map[], map[0 := OLD_LOOKUP], {}, 62 * SECOND)

  lemma StoredUnknown(run: Run) returns (run': Run)
    requires Ends(Sharing(2), run, STORED_AND_CLAIMED)
    ensures Ends(Sharing(2), run', STORED_UNKNOWN) && OneMore(run, Settle(3, TimedOut), run')
    ensures BecomesUnknown(run', |run.steps|, CASE)
  {
    var p: Scene;
    ShownStands(Last(run), STORED_AND_CLAIMED);
    run', p := TimesOut(Sharing(2), run, STORED_AND_CLAIMED, 3);
    ShownStands(Last(run'), p);
    assert p == STORED_UNKNOWN;
  }

  lemma SentBlindly(run: Run) returns (run': Run)
    requires Ends(Sharing(2), run, STORED_UNKNOWN)
    ensures IsRun(Sharing(2), run') && GoesOn(run, run', [LookupCommit(0), Begin(4)])
    ensures DispatchesAt(run', |run.steps| + 1, CASE) && OldAnswer(run', |run.steps|, |run.steps|, CASE)
  {
    var p: Scene;
    run', p := CommitsOldAbsence(Sharing(2), run, STORED_UNKNOWN, 0);
    run', p := SendsRequest(Sharing(2), run', p, 4);
    assert run'.steps == run.steps + [LookupCommit(0), Begin(4)];
  }

  const OLD_ABSENCE := [Settle(3, TimedOut), LookupCommit(0), Begin(4)]

  lemma OldAbsence(run: Run) returns (run': Run)
    requires Ends(Sharing(2), run, STORED_AND_CLAIMED)
    ensures IsRun(Sharing(2), run') && GoesOn(run, run', OLD_ABSENCE)
    ensures var i := |run.steps|;
            && BecomesUnknown(run', i, CASE) && DispatchesAt(run', i + 2, CASE)
            && OldAnswer(run', i + 1, i + 1, CASE) && RefundV1(CASE) in run'.worlds[i].refunds
  {
    var run1 := StoredUnknown(run);
    run' := SentBlindly(run1);
    assert run'.steps == run.steps + OLD_ABSENCE;
  }

  const SET_UP := TAKEOVER + THIRD_AT_WORK + GIVEN_UP + READ_AND_TIMED_OUT + ASKED

  lemma SetUp() returns (start: Run, run: Run)
    ensures Ends(Sharing(2), run, RETRY_PREPARED.(lookups := map[0 := OLD_LOOKUP])) && GoesOn(start, run, SET_UP)
  {
    var run1, run2, run3, run4: Run;
    start, run1 := TwoAtWork(2);
    run2 := ThirdAtWork(run1);
    run3 := FirstRefused(run2);
    run4 := RetryPrepared(run3);
    run := Asked(run4);
    GoesOnTwice(start, run1, TAKEOVER, run2, THIRD_AT_WORK);
    GoesOnTwice(start, run2, TAKEOVER + THIRD_AT_WORK, run3, GIVEN_UP);
    GoesOnTwice(start, run3, TAKEOVER + THIRD_AT_WORK + GIVEN_UP, run4, READ_AND_TIMED_OUT);
    GoesOnTwice(start, run4, TAKEOVER + THIRD_AT_WORK + GIVEN_UP + READ_AND_TIMED_OUT, run, ASKED);
  }

  /** A run in which the refund is stored and its outcome becomes unknown, a lookup that had asked long
      before then commits that the provider knows nothing, and a worker that has claimed another event
      dispatches the refund: no question, no refusal and no retry lie in between. */
  lemma OldAnswerDispatchesBlindly() returns (start: Run, run: Run)
    ensures IsRun(Sharing(2), run)
    ensures GoesOn(start, run, SET_UP + RETRY_AND_REFUSAL + SECOND_RETRY + SENT_AT_LAST + STORED_AT_LAST + OLD_ABSENCE)
    ensures var i := |start.steps| + 26;
            && BecomesUnknown(run, i, CASE) && DispatchesAt(run, i + 2, CASE)
            && OldAnswer(run, i + 1, i + 1, CASE) && RefundV1(CASE) in run.worlds[i].refunds
  {
    var run1, run2, run3, run4, run5: Run;
    start, run1 := SetUp();
    run2 := ThirdRefused(run1);
    run3 := SecondRetry(run2);
    run4 := SentAtLast(run3);
    run5 := StoredAtLast(run4);
    run := OldAbsence(run5);
    var steps := SET_UP + RETRY_AND_REFUSAL + SECOND_RETRY;
    GoesOnTwice(start, run1, SET_UP, run2, RETRY_AND_REFUSAL);
    GoesOnTwice(start, run2, SET_UP + RETRY_AND_REFUSAL, run3, SECOND_RETRY);
    GoesOnTwice(start, run3, steps, run4, SENT_AT_LAST);
    GoesOnTwice(start, run4, steps + SENT_AT_LAST, run5, STORED_AT_LAST);
    GoesOnTwice(start, run5, steps + SENT_AT_LAST + STORED_AT_LAST, run, OLD_ABSENCE);
  }

  /* With a retry by finance in between. */

  const ASKED_WHEN_UNKNOWN :=
    [Settle(0, TimedOut), LookupReadCase(0, ADMIN, CASE), LookupReadAttempt(0), LookupAsk(0)]

  const EARLY_LOOKUP :=
    Lookup(ADMIN, CASE, Row(RefundUnknown, 7, Some(900)), Some(Dispatched(2).(status := Unknown)), Absent)

  const ANSWERED_EARLY := TWO_AT_WORK.(
    row := Row(RefundUnknown, 7, Some(900)), attempt := Dispatched(2).(status := Unknown),
    events := map[5 := MarkDone(TAKEN_OVER)], sessions := map[1 := Session(5, Waiting(1))],
    lookups := map[0 := EARLY_LOOKUP])

  lemma FirstTimesOut(run: Run) returns (run': Run)
    requires Ends(Sharing(3), run, TWO_AT_WORK)
    ensures Ends(Sharing(3), run', ANSWERED_EARLY.(lookups := map[])) && OneMore(run, Settle(0, TimedOut), run')
  {
    var p: Scene;
    run', p := TimesOut(Sharing(3), run, TWO_AT_WORK, 0);
    assert p == ANSWERED_EARLY.(lookups := map[]);
  }

  lemma AskedWhenUnknown(run: Run) returns (run': Run)
    requires Ends(Sharing(3), run, TWO_AT_WORK)
    ensures Ends(Sharing(3), run', ANSWERED_EARLY) && GoesOn(run, run', ASKED_WHEN_UNKNOWN)
  {
    var p: Scene;
    run' := FirstTimesOut(run);
    run', p := LooksAtCase(Sharing(3), run', ANSWERED_EARLY.(lookups := map[]), 0);
    run', p := LooksAtAttempt(Sharing(3), run', p, 0);
    run', p := AsksInVain(Sharing(3), run', p, 0);
    assert p == ANSWERED_EARLY;
    assert run'.steps == run.steps + ASKED_WHEN_UNKNOWN;
  }

  const ANSWERED_AND_REQUEUED := ANSWERED_EARLY.(
    attempt := Dispatched(2).(status := AttemptStatus.Failed),
    events := map[5 := Rescheduled(MarkDone(TAKEN_OVER), 31 * SECOND, 2)], calls := [SENT, SENT.(phase := Refused)],
    sessions := map[])

  const ANOTHER_REFUSAL := [ProviderRefuses(1), Settle(1, RepliedRefused)]

  lemma AnsweredAndRequeued(run: Run) returns (run': Run)
    requires Ends(Sharing(3), run, ANSWERED_EARLY)
    ensures Ends(Sharing(3), run', ANSWERED_AND_REQUEUED) && GoesOn(run, run', ANOTHER_REFUSAL)
  {
    var p: Scene;
    run', p := Refuses(Sharing(3), run, ANSWERED_EARLY, 1);
    run', p := IsRefused(Sharing(3), run', p, 1);
    assert Backoff(2) == 2;
    assert p == ANSWERED_AND_REQUEUED;
    assert run'.steps == run.steps + ANOTHER_REFUSAL;
  }

  const REQUEUED_AND_CLAIMED := ANOTHER_REFUSAL + [Tick(33 * SECOND), Claim(2, 5)]

  const THIRD_CLAIM := Event(ORG, RefundDispatch, CASE, Processing, 3, 33 * SECOND, Some(63 * SECOND), 0)

  const CLAIMED_AGAIN := ANSWERED_EARLY.(
    attempt := Dispatched(2).(status := AttemptStatus.Failed), events := map[5 := THIRD_CLAIM],
    calls := [SENT, SENT.(phase := Refused)], sessions := map[2 := Session(5, ClaimHeld)], now := 33 * SECOND)

  lemma RequeuedAndClaimed(run: Run) returns (run': Run)
    requires Ends(Sharing(3), run, ANSWERED_EARLY)
    ensures Ends(Sharing(3), run', CLAIMED_AGAIN) && GoesOn(run, run', REQUEUED_AND_CLAIMED)
  {
    var p: Scene;
    run' := AnsweredAndRequeued(run);
    run', p := Waits(Sharing(3), run', ANSWERED_AND_REQUEUED, 33 * SECOND);
    run', p := Claims(Sharing(3), run', p, 2, 5);
    assert p == CLAIMED_AGAIN;
    assert run'.steps == run.steps + REQUEUED_AND_CLAIMED;
  }

  const STORED_AND_LOST := [Begin(2), ProviderStores(2, "rf_1"), Settle(2, TimedOut)]

  const STORED_BUT_UNKNOWN := CLAIMED_AGAIN.(
    attempt := Dispatched(3).(status := Unknown), events := map[5 := MarkDone(THIRD_CLAIM)],
    refunds := map[RefundV1(CASE) := STORED],
    calls := [SENT, SENT.(phase := Refused), SENT.(phase := Answered(STORED))], sessions := map[])

  const STORED_IN_THE_END := STORED_BUT_UNKNOWN.(
    attempt := Dispatched(3), events := map[5 := THIRD_CLAIM], sessions := map[2 := Session(5, Waiting(2))])

  lemma StoredInTheEnd(run: Run) returns (run': Run)
    requires Ends(Sharing(3), run, CLAIMED_AGAIN)
    ensures Ends(Sharing(3), run', STORED_IN_THE_END) && GoesOn(run, run', STORED_AND_LOST[..2])
  {
    var p: Scene;
    run', p := SendsRequest(Sharing(3), run, CLAIMED_AGAIN, 2);
    run', p := Stores(Sharing(3), run', p, 2);
    assert p == STORED_IN_THE_END;
    assert run'.steps == run.steps + STORED_AND_LOST[..2];
  }

  lemma StoredAndLost(run: Run) returns (run': Run)
    requires Ends(Sharing(3), run, CLAIMED_AGAIN)
    ensures Ends(Sharing(3), run', STORED_BUT_UNKNOWN) && GoesOn(run, run', STORED_AND_LOST)
    ensures BecomesUnknown(run', |run.steps| + 2, CASE) && RefundV1(CASE) in run'.worlds[|run.steps| + 2].refunds
  {
    var p: Scene;
    run' := StoredInTheEnd(run);
    ShownStands(Last(run'), STORED_IN_THE_END);
    run', p := TimesOut(Sharing(3), run', STORED_IN_THE_END, 2);
    ShownStands(Last(run'), p);
    assert p == STORED_BUT_UNKNOWN;
    assert run'.steps == run.steps + STORED_AND_LOST;
  }

  const FAILED_BY_OLD_ANSWER := STORED_BUT_UNKNOWN.(
    row := Row(NeedsReconciliation, 8, Some(900)),
    attempt := Dispatched(3).(status := AttemptStatus.Failed, evidence := Some(LookupNotFound)), lookups := map[])

  lemma FailedByOldAnswer(run: Run) returns (run': Run)
    requires Ends(Sharing(3), run, STORED_BUT_UNKNOWN)
    ensures Ends(Sharing(3), run', FAILED_BY_OLD_ANSWER) && OneMore(run, LookupCommit(0), run')
    ensures FindsNothing(Last(run), LookupCommit(0), CASE)
  {
    var p: Scene;
    run', p := MarksAbsent(Sharing(3), run, STORED_BUT_UNKNOWN, 0);
    assert p == FAILED_BY_OLD_ANSWER;
  }

  const RETRIED_BY_FINANCE :=
    [LookupCommit(0), TxnRead(0, ADMIN, RetryOf(FAILED_BY_OLD_ANSWER.row)), TxnReadAttempt(0), TxnCommit(0, 6)]

  const RETRIED_AGAIN := FAILED_BY_OLD_ANSWER.(
    row := Row(RefundPending, 9, Some(900)), attempt := FAILED_BY_OLD_ANSWER.attempt.(status := Planned),
    events := map[5 := MarkDone(THIRD_CLAIM), 6 := NewEvent(ORG, RefundDispatch, CASE, 33 * SECOND)])

  lemma RetriedByFinance(run: Run) returns (run': Run)
    requires Ends(Sharing(3), run, STORED_BUT_UNKNOWN)
    ensures Ends(Sharing(3), run', RETRIED_AGAIN) && GoesOn(run, run', RETRIED_BY_FINANCE)
    ensures FindsNothing(run'.worlds[|run.steps|], LookupCommit(0), CASE)
  {
    var p: Scene;
    run' := FailedByOldAnswer(run);
    run', p := ReadsForRetry(Sharing(3), run', FAILED_BY_OLD_ANSWER, 0);
    run', p := RetryGoesAhead(Sharing(3), run', p, 0, 6);
    assert p == RETRIED_AGAIN;
    assert run'.steps == run.steps + RETRIED_BY_FINANCE;
  }

  const SENT_ONCE_MORE := [Claim(3, 6), Begin(3)]

  lemma SentOnceMore(run: Run) returns (run': Run)
    requires Ends(Sharing(3), run, RETRIED_AGAIN)
    ensures IsRun(Sharing(3), run') && GoesOn(run, run', SENT_ONCE_MORE)
    ensures DispatchesAt(run', |run.steps| + 1, CASE)
  {
    var p: Scene;
    run', p := Claims(Sharing(3), run, RETRIED_AGAIN, 3, 6);
    run', p := SendsRequest(Sharing(3), run', p, 3);
    assert run'.steps == run.steps + SENT_ONCE_MORE;
  }

  /** A run in which the answer is committed by a lookup that has read the unknown case as it still is, so
      that the guard holds: the attempt had been dispatched again, stored and become unknown once more, and
      finance retries on that answer. */
  lemma OldAnswerIsRetried() returns (start: Run, run: Run)
    ensures IsRun(Sharing(3), run)
    ensures GoesOn(start, run, TAKEOVER + ASKED_WHEN_UNKNOWN + REQUEUED_AND_CLAIMED + STORED_AND_LOST
                               + RETRIED_BY_FINANCE + SENT_ONCE_MORE)
    ensures var i := |start.steps| + 15;
            && BecomesUnknown(run, i, CASE) && DispatchesAt(run, i + 6, CASE)
            && OldAnswer(run, i + 1, i + 1, CASE) && RefundV1(CASE) in run.worlds[i].refunds
  {
    var run1, run2, run3, run4, run5: Run;
    start, run1 := TwoAtWork(3);
    run2 := AskedWhenUnknown(run1);
    run3 := RequeuedAndClaimed(run2);
    run4 := StoredAndLost(run3);
    run5 := RetriedByFinance(run4);
    run := SentOnceMore(run5);
    var steps := TAKEOVER + ASKED_WHEN_UNKNOWN;
    GoesOnTwice(start, run1, TAKEOVER, run2, ASKED_WHEN_UNKNOWN);
    GoesOnTwice(start, run2, steps, run3, REQUEUED_AND_CLAIMED);
    GoesOnTwice(start, run3, steps + REQUEUED_AND_CLAIMED, run4, STORED_AND_LOST);
    GoesOnTwice(start, run4, steps + REQUEUED_AND_CLAIMED + STORED_AND_LOST, run5, RETRIED_BY_FINANCE);
    GoesOnTwice(start, run5, steps + REQUEUED_AND_CLAIMED + STORED_AND_LOST + RETRIED_BY_FINANCE, run, SENT_ONCE_MORE);
    var _ := AbsenceIsOldOrNew(Sharing(3), run, |start.steps| + 16, |start.steps| + 16, CASE);
  }
}
