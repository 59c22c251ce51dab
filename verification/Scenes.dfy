/** Runs made by hand: one case brought to a planned refund, and one lemma per kind of step that
    lengthens a run and says what the tables, the network and the workers look like afterwards. */
module Scenes {
  import opened Domain
  import opened Tables
  import opened CaseStore
  import opened Outbox
  import opened Refunds
  import opened Returns
  import opened Payments
  import opened Provider
  import opened Confirmation
  import opened Cells
  import opened Ledger
  import opened Settlement
  import opened Protocol
  import opened Guarantees
  import opened Exclusive
  import opened Confluence
  import opened Receipts

  const ORG: Uuid := 1
  const CASE: CaseId := 7
  const ADMIN := Context(ORG, 1, Admin)

  function Last(run: Run): World
    requires |run.worlds| > 0
  {
    run.worlds[|run.worlds| - 1]
  }

  /** `run'` is `run` with one more step. */
  predicate OneMore(run: Run, step: Step, run': Run) {
    && run'.steps == run.steps + [step]
    && |run'.worlds| == |run.worlds| + 1
    && run.worlds <= run'.worlds
  }

  lemma Lengthen(config: Config, run: Run, step: Step, w': World) returns (run': Run)
    requires IsRun(config, run) && Next(config, Last(run), step) == Some(w')
    ensures IsRun(config, run') && OneMore(run, step, run') && Last(run') == w'
  {
    run' := Run(run.worlds + [w'], run.steps + [step]);
    forall i | 0 <= i < |run'.steps| ensures Taken(config, run', i) {
      if i < |run.steps| {
        assert Taken(config, run, i);
      }
    }
  }

  lemma LengthenSettled(config: Config, run: Run, s: nat, outcome: Outcome, w': World) returns (run': Run)
    requires IsRun(config, run) && StepSettle(config.settings, Last(run), s, outcome) == Some(w')
    ensures IsRun(config, run') && OneMore(run, Settle(s, outcome), run') && Last(run') == w'
  {
    run' := Lengthen(config, run, Settle(s, outcome), w');
  }

  lemma LengthenDelivered(config: Config, run: Run, key: ProviderKey, eventId: string, w': World) returns (run': Run)
    requires IsRun(config, run) && StepWebhook(Last(run), key, eventId) == Some(w')
    ensures IsRun(config, run') && OneMore(run, Webhook(key, eventId), run') && Last(run') == w'
  {
    run' := Lengthen(config, run, Webhook(key, eventId), w');
  }

  /* Up to the planned refund. */

  /** The committed tables are `db`, and nothing else has happened. */
  ghost predicate Quiet(config: Config, run: Run, db: Db) {
    IsRun(config, run) && Last(run) == INITIAL.(db := db)
  }

  lemma CommandRuns(config: Config, run: Run, db: Db, cmd: Command, e: EventId) returns (run': Run, db': Db)
    requires Quiet(config, run, db) && !cmd.op.RetryFailed?
    requires Exec(config.settings, db, ADMIN, cmd, 0, e).Ok?
    ensures db' == Exec(config.settings, db, ADMIN, cmd, 0, e).value.0 && Quiet(config, run', db')
  {
    var txn := Txn(ADMIN, cmd, db.cases[cmd.c], None, None);
    run' := Lengthen(config, run, TxnRead(0, ADMIN, cmd), StepTxnRead(Last(run), 0, ADMIN, cmd).value);
    assert Last(run').txns == map[0 := txn];
    if cmd.op.ApproveRefundOf? {
      run' := Lengthen(config, run', TxnReadApprovals(0), StepTxnReadApprovals(Last(run'), 0).value);
      assert Last(run').txns == map[0 := txn.(approvals := Some(RefundApprovals(db.approvals, cmd.c)))];
    }
    db' := Exec(config.settings, db, ADMIN, cmd, 0, e).value.0;
    assert Last(run').txns - {0} == map[];
    run' := Lengthen(config, run', TxnCommit(0, e), INITIAL.(db := db'));
  }

  function Row(status: ReturnStatus, version: int, approved: Option<int>): CaseRow {
    CaseRow(ORG, 900, approved, "EUR", status, version)
  }

  /** The case before its refund is approved. */
  predicate Early(db: Db, status: ReturnStatus, version: int, approvals: seq<Approval>) {
    && CASE in db.cases && db.cases[CASE] == Row(status, version, None)
    && db.attempts == map[] && db.events == map[] && db.receipts == map[]
    && db.approvals == approvals
  }

  const ELIGIBLE := [EligibilityApproval(ADMIN, CASE)]

  lemma OpenedRun(config: Config) returns (run: Run, db: Db)
    ensures Quiet(config, run, db) && Early(db, Requested, 1, [])
  {
    assert Upper("EUR") == "EUR";
    db := CreateCase(EMPTY_DB, ADMIN, CASE, 900, "EUR").value;
    run := Lengthen(config, Run([INITIAL], []), Create(ADMIN, CASE, 900, "EUR"), INITIAL.(db := db));
  }

  lemma AuthorizedRun(config: Config, run: Run, db: Db) returns (run': Run, db': Db)
    requires Quiet(config, run, db) && Early(db, Requested, 1, [])
    ensures Quiet(config, run', db') && Early(db', ReturnStatus.Authorized, 2, ELIGIBLE)
  {
    run', db' := CommandRuns(config, run, db, Command(CASE, 1, Authorize), 0);
  }

  lemma MovedRun(config: Config, run: Run, db: Db, from: ReturnStatus, version: int, op: Operation, to: ReturnStatus)
    returns (run': Run, db': Db)
    requires Quiet(config, run, db) && Early(db, from, version, ELIGIBLE)
    requires (op == Receive && from == ReturnStatus.Authorized && to == Received)
          || (op == Inspect && from == Received && to == Inspected)
    ensures Quiet(config, run', db') && Early(db', to, version + 1, ELIGIBLE)
  {
    run', db' := CommandRuns(config, run, db, Command(CASE, version, op), 0);
  }

  const PLANNED := Attempt(ORG, RefundV1(CASE), 900, "EUR", Planned, None, 0, None)

  /** The refund is planned and event 5 waits for a worker. */
  predicate AwaitsWorker(db: Db) {
    && CASE in db.cases && db.cases[CASE] == Row(RefundPending, 6, Some(900))
    && CASE in db.attempts && db.attempts[CASE] == PLANNED
    && db.events == map[5 := NewEvent(ORG, RefundDispatch, CASE, 0)]
    && db.receipts == map[]
  }

  lemma ApprovalPlans(settings: Settings, db: Db)
    requires settings.highValueThreshold > 900 && Early(db, Inspected, 4, ELIGIBLE)
    ensures var r := Exec(settings, db, ADMIN, Command(CASE, 4, ApproveRefundOf(900)), 0, 5);
            r.Ok? && AwaitsWorker(r.value.0)
  {
    assert RefundApprovals(ELIGIBLE, CASE) == RefundApprovals([], CASE) by {
      RefundApprovalsAppend([], EligibilityApproval(ADMIN, CASE), CASE);
      assert [] + ELIGIBLE == ELIGIBLE;
    }
    var db1 := InsertApproval(db, ApprovalBy(ADMIN, CASE, RefundApproval, 900)).value;
    var r := ApproveAndPlan(db1, ADMIN, CASE, db.cases[CASE], 4, 900, 0, 5);
    assert r.Ok? && AwaitsWorker(r.value);
  }

  /* From there on. */

  /** What is seen of the world: the records of case 7, the provider, the network and who is at work. */
  datatype Scene = Scene(
    row: CaseRow,
    attempt: Attempt,
    events: map<EventId, Event>,
    refunds: ProviderTable,
    calls: seq<Call>,
    sessions: map<nat, Session>,
    txns: map<nat, Txn>,
    lookups: map<nat, Lookup>,
    delivered: set<string>,
    now: Time)

  predicate Shows(w: World, p: Scene) {
    && CASE in w.db.cases && w.db.cases[CASE] == p.row && p.row.org == ORG
    && CASE in w.db.attempts && w.db.attempts[CASE] == p.attempt && p.attempt.org == ORG
    && p.attempt.key == RefundV1(CASE)
    && w.db.events == p.events && w.db.receipts.Keys == p.delivered
    && (forall e :: e in p.events ==> p.events[e].topic == RefundDispatch && p.events[e].caseId == CASE)
    && w.refunds == p.refunds && w.calls == p.calls && w.sessions == p.sessions
    && w.txns == p.txns && w.lookups == p.lookups && w.now == p.now
  }

  ghost predicate Ends(config: Config, run: Run, p: Scene) {
    IsRun(config, run) && Shows(Last(run), p)
  }

  lemma PlannedRun(config: Config) returns (run: Run, p: Scene)
    requires config.settings.highValueThreshold > 900
    ensures Ends(config, run, p)
    ensures p == Scene(Row(RefundPending, 6, Some(900)), PLANNED, map[5 := NewEvent(ORG, RefundDispatch, CASE, 0)],
                       map[], [], map[], map[], map[], {}, 0)
  {
    var db: Db;
    run, db := OpenedRun(config);
    run, db := AuthorizedRun(config, run, db);
    run, db := MovedRun(config, run, db, ReturnStatus.Authorized, 2, Receive, Received);
    run, db := MovedRun(config, run, db, Received, 3, Inspect, Inspected);
    ApprovalPlans(config.settings, db);
    run, db := CommandRuns(config, run, db, Command(CASE, 4, ApproveRefundOf(900)), 5);
    p := Scene(db.cases[CASE], db.attempts[CASE], db.events, map[], [], map[], map[], map[], {}, 0);
  }

  lemma Waits(config: Config, run: Run, p: Scene, to: Time) returns (run': Run, p': Scene)
    requires Ends(config, run, p) && p.now <= to
    ensures p' == p.(now := to) && Ends(config, run', p') && OneMore(run, Tick(to), run')
  {
    p' := p.(now := to);
    run' := Lengthen(config, run, Tick(to), Last(run).(now := to));
  }

  lemma Claims(config: Config, run: Run, p: Scene, s: nat, e: EventId) returns (run': Run, p': Scene)
    requires Ends(config, run, p) && s !in p.sessions && e in p.events && Eligible(p.events[e], p.now)
    requires config.exclusive ==> forall x :: x in p.sessions ==> p.sessions[x].e != e
    ensures p' == p.(events := p.events[e := Claimed(p.events[e], p.now, config.settings.leaseSeconds)],
                     sessions := p.sessions[s := Session(e, ClaimHeld)])
    ensures Ends(config, run', p') && OneMore(run, Claim(s, e), run')
  {
    p' := p.(events := p.events[e := Claimed(p.events[e], p.now, config.settings.leaseSeconds)],
             sessions := p.sessions[s := Session(e, ClaimHeld)]);
    run' := Lengthen(config, run, Claim(s, e), StepClaim(config, Last(run), s, e).value);
  }

  lemma SendsRequest(config: Config, run: Run, p: Scene, s: nat) returns (run': Run, p': Scene)
    requires Ends(config, run, p) && s in p.sessions && p.sessions[s].stage.ClaimHeld? && p.sessions[s].e in p.events
    requires p.events[p.sessions[s].e].status == Processing && MayDispatch(p.attempt.status)
    ensures p' == p.(attempt := p.attempt.(status := Dispatching, dispatchCount := p.attempt.dispatchCount + 1),
                     calls := p.calls + [Call(RefundRequest(RefundV1(CASE), p.attempt.amount, p.attempt.currency, CASE),
                                              Sent)],
                     sessions := p.sessions[s := Session(p.sessions[s].e, Waiting(|p.calls|))])
    ensures Ends(config, run', p') && OneMore(run, Begin(s), run')
  {
    var w' := BeginsDispatch(Last(run), p, s);
    p' := p.(attempt := w'.db.attempts[CASE], calls := w'.calls, sessions := w'.sessions);
    run' := Lengthen(config, run, Begin(s), w');
  }

  lemma BeginsDispatch(w: World, p: Scene, s: nat) returns (w': World)
    requires Shows(w, p) && s in p.sessions && p.sessions[s].stage.ClaimHeld? && p.sessions[s].e in p.events
    requires p.events[p.sessions[s].e].status == Processing && MayDispatch(p.attempt.status)
    ensures StepBegin(w, s) == Some(w') && w' == w.(db := w'.db, calls := w'.calls, sessions := w'.sessions)
    ensures w'.db == w.db.(attempts := w'.db.attempts, audit := w'.db.audit)
    ensures CASE in w'.db.attempts
    ensures w'.db.attempts[CASE]
         == p.attempt.(status := Dispatching, dispatchCount := p.attempt.dispatchCount + 1)
    ensures w'.calls == p.calls + [Call(RefundRequest(RefundV1(CASE), p.attempt.amount, p.attempt.currency, CASE),
                                        Sent)]
    ensures w'.sessions == p.sessions[s := Session(p.sessions[s].e, Waiting(|p.calls|))]
  {
    w' := StepBegin(w, s).value;
  }

  /** The provider stores the first request for the case. */
  lemma Stores(config: Config, run: Run, p: Scene, call: nat) returns (run': Run, p': Scene)
    requires Ends(config, run, p) && p.refunds == map[] && call < |p.calls| && p.calls[call].phase.Sent?
    requires p.calls[call].request == RefundRequest(RefundV1(CASE), 900, "EUR", CASE)
    ensures p' == p.(refunds := map[RefundV1(CASE) := STORED],
                     calls := p.calls[call := Call(p.calls[call].request, Answered(STORED))])
    ensures Ends(config, run', p') && OneMore(run, ProviderStores(call, "rf_1"), run')
  {
    var w' := StepProviderStores(Last(run), call, "rf_1").value;
    assert w'.refunds == map[RefundV1(CASE) := STORED];
    p' := p.(refunds := w'.refunds, calls := w'.calls);
    run' := Lengthen(config, run, ProviderStores(call, "rf_1"), w');
  }

  const STORED := ProviderRow("rf_1", 900, "EUR", CASE, PaymentSucceeded, 1)

  lemma Refuses(config: Config, run: Run, p: Scene, call: nat) returns (run': Run, p': Scene)
    requires Ends(config, run, p) && call < |p.calls| && p.calls[call].phase.Sent?
    ensures p' == p.(calls := p.calls[call := p.calls[call].(phase := Refused)])
    ensures Ends(config, run', p') && OneMore(run, ProviderRefuses(call), run')
  {
    p' := p.(calls := p.calls[call := p.calls[call].(phase := Refused)]);
    run' := Lengthen(config, run, ProviderRefuses(call), StepCallEnds(Last(run), call, Refused).value);
  }

  lemma Loses(config: Config, run: Run, p: Scene, call: nat) returns (run': Run, p': Scene)
    requires Ends(config, run, p) && call < |p.calls| && p.calls[call].phase.Sent?
    ensures p' == p.(calls := p.calls[call := p.calls[call].(phase := Lost)])
    ensures Ends(config, run', p') && OneMore(run, RequestLost(call), run')
  {
    p' := p.(calls := p.calls[call := p.calls[call].(phase := Lost)]);
    run' := Lengthen(config, run, RequestLost(call), StepCallEnds(Last(run), call, Lost).value);
  }

  lemma Crashes(config: Config, run: Run, p: Scene, s: nat) returns (run': Run, p': Scene)
    requires Ends(config, run, p) && s in p.sessions
    ensures p' == p.(sessions := p.sessions - {s})
    ensures Ends(config, run', p') && OneMore(run, Crash(s), run')
  {
    p' := p.(sessions := p.sessions - {s});
    run' := Lengthen(config, run, Crash(s), Last(run).(sessions := p.sessions - {s}));
  }

  /* Settlements. */

  predicate Awaiting(p: Scene, s: nat) {
    && s in p.sessions && p.sessions[s].stage.Waiting? && p.sessions[s].stage.call < |p.calls|
    && p.sessions[s].e in p.events
  }

  function RowTo(row: CaseRow, status: ReturnStatus): CaseRow {
    row.(status := status, version := row.version + 1)
  }

  lemma TimesOut(config: Config, run: Run, p: Scene, s: nat) returns (run': Run, p': Scene)
    requires Ends(config, run, p) && Awaiting(p, s) && p.attempt.status != Succeeded
    ensures p' == p.(row := if p.row.status == RefundPending then RowTo(p.row, RefundUnknown) else p.row,
                     attempt := p.attempt.(status := Unknown),
                     events := p.events[p.sessions[s].e := MarkDone(p.events[p.sessions[s].e])],
                     sessions := p.sessions - {s})
    ensures Ends(config, run', p') && OneMore(run, Settle(s, TimedOut), run')
  {
    var w' := TimeoutSettled(config.settings, Last(run), p, s);
    p' := p.(row := w'.db.cases[CASE], attempt := w'.db.attempts[CASE], events := w'.db.events,
             sessions := w'.sessions);
    run' := LengthenSettled(config, run, s, TimedOut, w');
  }

  lemma TimeoutSettled(settings: Settings, w: World, p: Scene, s: nat) returns (w': World)
    requires Shows(w, p) && Awaiting(p, s) && p.attempt.status != Succeeded
    ensures StepSettle(settings, w, s, TimedOut) == Some(w') && w' == w.(db := w'.db, sessions := p.sessions - {s})
    ensures CASE in w'.db.cases && CASE in w'.db.attempts
    ensures w'.db.cases[CASE] == if p.row.status == RefundPending then RowTo(p.row, RefundUnknown) else p.row
    ensures w'.db.attempts[CASE] == p.attempt.(status := Unknown)
    ensures w'.db.events == p.events[p.sessions[s].e := MarkDone(p.events[p.sessions[s].e])]
    ensures w'.db.receipts == w.db.receipts
  {
    w' := StepSettle(settings, w, s, TimedOut).value;
  }

  /** A refused call that may be repeated. */
  lemma IsRefused(config: Config, run: Run, p: Scene, s: nat) returns (run': Run, p': Scene)
    requires Ends(config, run, p) && Awaiting(p, s) && p.calls[p.sessions[s].stage.call].phase.Refused?
    requires p.events[p.sessions[s].e].attempts < config.settings.maxDispatchAttempts
    ensures var e := p.sessions[s].e;
            p' == p.(attempt := p.attempt.(status := AttemptStatus.Failed),
                     events := p.events[e := Rescheduled(p.events[e], p.now, Backoff(p.events[e].attempts))],
                     sessions := p.sessions - {s})
    ensures Ends(config, run', p') && OneMore(run, Settle(s, RepliedRefused), run')
  {
    var w' := StepSettle(config.settings, Last(run), s, RepliedRefused).value;
    p' := p.(attempt := w'.db.attempts[CASE], events := w'.db.events, sessions := w'.sessions);
    run' := LengthenSettled(config, run, s, RepliedRefused, w');
  }

  /** A refused call that was the last one allowed. */
  lemma GivesUp(config: Config, run: Run, p: Scene, s: nat) returns (run': Run, p': Scene)
    requires Ends(config, run, p) && Awaiting(p, s) && p.calls[p.sessions[s].stage.call].phase.Refused?
    requires p.events[p.sessions[s].e].attempts >= config.settings.maxDispatchAttempts
    requires p.row.status == RefundPending
    ensures var e := p.sessions[s].e;
            p' == p.(row := RowTo(p.row, NeedsReconciliation),
                     attempt := p.attempt.(status := AttemptStatus.Failed),
                     events := p.events[e := DeadLetter(p.events[e])],
                     sessions := p.sessions - {s})
    ensures Ends(config, run', p') && OneMore(run, Settle(s, RepliedRefused), run')
  {
    var w' := StepSettle(config.settings, Last(run), s, RepliedRefused).value;
    p' := p.(row := w'.db.cases[CASE], attempt := w'.db.attempts[CASE], events := w'.db.events,
             sessions := w'.sessions);
    run' := LengthenSettled(config, run, s, RepliedRefused, w');
  }

  lemma IsConfirmed(config: Config, run: Run, p: Scene, s: nat) returns (run': Run, p': Scene)
    requires Ends(config, run, p) && Awaiting(p, s) && p.row.status == RefundPending
    requires p.calls[p.sessions[s].stage.call].phase == Answered(STORED)
    requires p.attempt.amount == 900 && p.attempt.currency == "EUR" && p.attempt.status != Succeeded
    ensures p' == p.(row := RowTo(p.row, Refunded),
                     attempt := ConfirmedAttempt(p.attempt, "rf_1", EvidenceOf(STORED, "")),
                     events := p.events[p.sessions[s].e := MarkDone(p.events[p.sessions[s].e])],
                     sessions := p.sessions - {s})
    ensures Ends(config, run', p') && OneMore(run, Settle(s, Replied), run')
  {
    var w' := ReplySettled(config.settings, Last(run), p, s);
    p' := p.(row := w'.db.cases[CASE], attempt := w'.db.attempts[CASE], events := w'.db.events,
             sessions := w'.sessions);
    run' := LengthenSettled(config, run, s, Replied, w');
  }

  lemma ReplySettled(settings: Settings, w: World, p: Scene, s: nat) returns (w': World)
    requires Shows(w, p) && Awaiting(p, s) && p.row.status == RefundPending
    requires p.calls[p.sessions[s].stage.call].phase == Answered(STORED)
    requires p.attempt.amount == 900 && p.attempt.currency == "EUR" && p.attempt.status != Succeeded
    ensures StepSettle(settings, w, s, Replied) == Some(w') && w' == w.(db := w'.db, sessions := p.sessions - {s})
    ensures CASE in w'.db.cases && w'.db.cases[CASE] == RowTo(p.row, Refunded)
    ensures CASE in w'.db.attempts
    ensures w'.db.attempts[CASE] == ConfirmedAttempt(p.attempt, "rf_1", EvidenceOf(STORED, ""))
    ensures w'.db.events == p.events[p.sessions[s].e := MarkDone(p.events[p.sessions[s].e])]
    ensures w'.db.receipts == w.db.receipts
  {
    w' := StepSettle(settings, w, s, Replied).value;
  }

  /** A webhook about the stored refund. */
  lemma IsDelivered(config: Config, run: Run, p: Scene, eventId: string) returns (run': Run, p': Scene)
    requires Ends(config, run, p) && p.refunds == map[RefundV1(CASE) := STORED]
    requires eventId != "" && eventId !in p.delivered && Uncertain(p.row.status)
    requires p.attempt.amount == 900 && p.attempt.currency == "EUR" && p.attempt.providerRef.None?
    ensures p' == p.(row := RowTo(p.row, Refunded),
                     attempt := ConfirmedAttempt(p.attempt, "rf_1", EvidenceOf(STORED, eventId)),
                     delivered := p.delivered + {eventId})
    ensures Ends(config, run', p') && OneMore(run, Webhook(RefundV1(CASE), eventId), run')
  {
    var db := DeliveryIsTaken(config, run, p, eventId);
    p' := p.(row := db.cases[CASE], attempt := db.attempts[CASE], delivered := p.delivered + {eventId});
    run' := LengthenDelivered(config, run, RefundV1(CASE), eventId, Last(run).(db := db));
  }

  lemma DeliveryIsTaken(config: Config, run: Run, p: Scene, eventId: string) returns (db': Db)
    requires Ends(config, run, p) && p.refunds == map[RefundV1(CASE) := STORED]
    requires eventId != "" && eventId !in p.delivered && Uncertain(p.row.status)
    requires p.attempt.amount == 900 && p.attempt.currency == "EUR" && p.attempt.providerRef.None?
    ensures StepWebhook(Last(run), RefundV1(CASE), eventId) == Some(Last(run).(db := db'))
    ensures CASE in db'.cases && db'.cases[CASE] == RowTo(p.row, Refunded)
    ensures CASE in db'.attempts
    ensures db'.attempts[CASE] == ConfirmedAttempt(p.attempt, "rf_1", EvidenceOf(STORED, eventId))
    ensures db'.events == p.events && db'.receipts.Keys == p.delivered + {eventId}
  {
    RunKeepsInv(config, run, |run.worlds| - 1);
    db' := Delivered(config.settings, Last(run).db, eventId);
  }

  lemma Delivered(settings: Settings, db: Db, eventId: string) returns (db': Db)
    requires CellsOk(settings, db) && CASE in db.attempts && RowMatches(STORED, db.attempts[CASE])
    requires eventId != "" && eventId !in db.receipts && CASE in db.cases && Uncertain(db.cases[CASE].status)
    ensures ProcessWebhook(db, PayloadOf(STORED, RefundV1(CASE), eventId)) == Ok((db', false))
    ensures CASE in db'.cases && db'.cases[CASE] == RowTo(db.cases[CASE], Refunded)
    ensures CASE in db'.attempts
    ensures db'.attempts[CASE] == ConfirmedAttempt(db.attempts[CASE], "rf_1", EvidenceOf(STORED, eventId))
    ensures db'.events == db.events && db'.receipts.Keys == db.receipts.Keys + {eventId}
  {
    var payload := PayloadOf(STORED, RefundV1(CASE), eventId);
    DeliveryGoesThrough(settings, db, CASE, STORED, eventId);
    db' := ProcessWebhook(db, payload).value.0;
    WebhookEffect(settings, db, STORED, CASE, eventId, (db', false));
    WebhookReceipts(db, payload, (db', false));
    assert CellOf(db', CASE).row.Some? && CellOf(db', CASE).attempt.Some?;
  }

  /* Lookups and retries. */

  lemma LooksAtCase(config: Config, run: Run, p: Scene, l: nat) returns (run': Run, p': Scene)
    requires Ends(config, run, p) && l !in p.lookups && Uncertain(p.row.status)
    ensures p' == p.(lookups := p.lookups[l := Lookup(ADMIN, CASE, p.row, None, NotAsked)])
    ensures Ends(config, run', p') && OneMore(run, LookupReadCase(l, ADMIN, CASE), run')
  {
    p' := p.(lookups := p.lookups[l := Lookup(ADMIN, CASE, p.row, None, NotAsked)]);
    run' := Lengthen(config, run, LookupReadCase(l, ADMIN, CASE),
                     StepLookupReadCase(Last(run), l, ADMIN, CASE).value);
  }

  predicate LookingUp(p: Scene, l: nat) {
    l in p.lookups && p.lookups[l].context == ADMIN && p.lookups[l].c == CASE
  }

  lemma LooksAtAttempt(config: Config, run: Run, p: Scene, l: nat) returns (run': Run, p': Scene)
    requires Ends(config, run, p) && LookingUp(p, l) && p.lookups[l].seen.None?
    ensures p' == p.(lookups := p.lookups[l := p.lookups[l].(seen := Some(p.attempt))])
    ensures Ends(config, run', p') && OneMore(run, LookupReadAttempt(l), run')
  {
    p' := p.(lookups := p.lookups[l := p.lookups[l].(seen := Some(p.attempt))]);
    run' := Lengthen(config, run, LookupReadAttempt(l), StepLookupReadAttempt(Last(run), l).value);
  }

  /** The provider is asked and knows nothing. */
  lemma AsksInVain(config: Config, run: Run, p: Scene, l: nat) returns (run': Run, p': Scene)
    requires Ends(config, run, p) && LookingUp(p, l) && p.lookups[l].observed.NotAsked? && p.refunds == map[]
    requires p.lookups[l].seen.Some?
    ensures p' == p.(lookups := p.lookups[l := p.lookups[l].(observed := Absent)])
    ensures Ends(config, run', p') && OneMore(run, LookupAsk(l), run')
  {
    p' := p.(lookups := p.lookups[l := p.lookups[l].(observed := Absent)]);
    run' := Lengthen(config, run, LookupAsk(l), StepLookupAsk(Last(run), l).value);
  }

  /** The absence is committed by a lookup that had read the case while it needed reconciliation. */
  lemma CommitsOldAbsence(config: Config, run: Run, p: Scene, l: nat) returns (run': Run, p': Scene)
    requires Ends(config, run, p) && LookingUp(p, l) && p.lookups[l].observed.Absent?
    requires p.lookups[l].snap.status == NeedsReconciliation
    requires p.lookups[l].seen.Some? && p.lookups[l].seen.value.status == Unknown
    requires p.lookups[l].seen.value.evidence.None?
    ensures p' == p.(attempt := p.attempt.(status := AttemptStatus.Failed, evidence := Some(LookupNotFound)),
                     lookups := p.lookups - {l})
    ensures Ends(config, run', p') && OneMore(run, LookupCommit(l), run')
  {
    var w' := StepLookupCommit(Last(run), l).value;
    p' := p.(attempt := w'.db.attempts[CASE], lookups := w'.lookups);
    run' := Lengthen(config, run, LookupCommit(l), w');
  }

  /** The absence is committed by a lookup that has read the case as it still is, unknown. */
  lemma MarksAbsent(config: Config, run: Run, p: Scene, l: nat) returns (run': Run, p': Scene)
    requires Ends(config, run, p) && LookingUp(p, l) && p.lookups[l].observed.Absent?
    requires p.lookups[l].snap == p.row && p.row.status == RefundUnknown
    requires p.lookups[l].seen.Some? && p.lookups[l].seen.value.status == Unknown
    requires p.lookups[l].seen.value.evidence.None?
    ensures p' == p.(row := RowTo(p.row, NeedsReconciliation),
                     attempt := p.attempt.(status := AttemptStatus.Failed, evidence := Some(LookupNotFound)),
                     lookups := p.lookups - {l})
    ensures Ends(config, run', p') && OneMore(run, LookupCommit(l), run')
  {
    var w' := StepLookupCommit(Last(run), l).value;
    p' := p.(row := w'.db.cases[CASE], attempt := w'.db.attempts[CASE], lookups := w'.lookups);
    run' := Lengthen(config, run, LookupCommit(l), w');
  }

  function RetryOf(row: CaseRow): Command {
    Command(CASE, row.version, RetryFailed)
  }

  /** Finance reads the case and the attempt for a retry. */
  lemma ReadsForRetry(config: Config, run: Run, p: Scene, t: nat) returns (run': Run, p': Scene)
    requires Ends(config, run, p) && t !in p.txns
    ensures p' == p.(txns := p.txns[t := Txn(ADMIN, RetryOf(p.row), p.row, None, Some(p.attempt))])
    ensures Ends(config, run', p')
    ensures run'.steps == run.steps + [TxnRead(t, ADMIN, RetryOf(p.row)), TxnReadAttempt(t)]
    ensures |run'.worlds| == |run.worlds| + 2 && run.worlds <= run'.worlds
  {
    var run1 := Lengthen(config, run, TxnRead(t, ADMIN, RetryOf(p.row)),
                         StepTxnRead(Last(run), t, ADMIN, RetryOf(p.row)).value);
    var w' := StepTxnReadAttempt(Last(run1), t).value;
    p' := p.(txns := p.txns[t := Txn(ADMIN, RetryOf(p.row), p.row, None, Some(p.attempt))]);
    assert w'.txns == p'.txns;
    run' := Lengthen(config, run1, TxnReadAttempt(t), w');
  }

  lemma RetryGoesAhead(config: Config, run: Run, p: Scene, t: nat, e: EventId) returns (run': Run, p': Scene)
    requires Ends(config, run, p) && e !in p.events && p.row.status == NeedsReconciliation
    requires t in p.txns && p.txns[t].context == ADMIN && p.txns[t].cmd == RetryOf(p.row) && p.txns[t].snap == p.row
    requires p.txns[t].seen.Some? && p.txns[t].seen.value.status == AttemptStatus.Failed
    ensures p' == p.(row := RowTo(p.row, RefundPending), attempt := p.attempt.(status := Planned),
                     events := p.events[e := NewEvent(ORG, RefundDispatch, CASE, p.now)],
                     txns := p.txns - {t})
    ensures Ends(config, run', p') && OneMore(run, TxnCommit(t, e), run')
  {
    var w' := StepTxnCommit(config.settings, Last(run), t, e).value;
    p' := p.(row := w'.db.cases[CASE], attempt := w'.db.attempts[CASE], events := w'.db.events, txns := w'.txns);
    run' := Lengthen(config, run, TxnCommit(t, e), w');
  }
}
