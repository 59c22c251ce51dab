/** The invariant of the whole protocol at level FREE, kept by every step. */
module Safety {
  import opened Domain
  import opened Tables
  import opened CaseStore
  import opened Returns
  import opened Payments
  import opened Provider
  import opened Confirmation
  import opened Worker
  import opened Cells
  import opened Ledger
  import opened Settlement
  import opened Protocol

  /** The provider only holds refunds that were asked for, each as it was asked for. */
  ghost predicate ProviderOk(attempts: map<CaseId, Attempt>, refunds: ProviderTable) {
    forall k {:trigger refunds[k]} :: k in refunds ==>
      && k.RefundV1? && k.caseId in attempts && refunds[k].caseId == k.caseId
      && RowMatches(refunds[k], attempts[k.caseId])
      && refunds[k].postCount >= 1
  }

  ghost predicate RefundIdsUnique(refunds: ProviderTable) {
    forall j, k {:trigger refunds[j], refunds[k]} ::
      j in refunds && k in refunds && refunds[j].refundId == refunds[k].refundId ==> j == k
  }

  /** Every recorded provider reference is that of a stored refund. */
  ghost predicate RefsOk(attempts: map<CaseId, Attempt>, refunds: ProviderTable) {
    forall c {:trigger attempts[c]} :: c in attempts && attempts[c].providerRef.Some? ==>
      RefundV1(c) in refunds && refunds[RefundV1(c)].refundId == attempts[c].providerRef.value
  }

  /** Two readings of one refund: only the post count may differ. */
  predicate SameRefund(a: ProviderRow, b: ProviderRow) {
    a == b.(postCount := a.postCount)
  }

  predicate CallOk(attempts: map<CaseId, Attempt>, refunds: ProviderTable, call: Call) {
    var c := call.request.caseId;
    && c in attempts
    && call.request == RefundRequest(RefundV1(c), attempts[c].amount, attempts[c].currency, c)
    && (call.phase.Answered? ==>
          call.request.key in refunds && SameRefund(call.phase.reply, refunds[call.request.key]))
  }

  ghost predicate CallsOk(attempts: map<CaseId, Attempt>, refunds: ProviderTable, calls: seq<Call>) {
    forall i {:trigger calls[i]} :: 0 <= i < |calls| ==> CallOk(attempts, refunds, calls[i])
  }

  /** The requests ever sent for a case, those the provider has stored, those still under way. */
  function CallsOf(calls: seq<Call>, c: CaseId): set<int> {
    set i | 0 <= i < |calls| && calls[i].request.caseId == c
  }

  function AnsweredOf(calls: seq<Call>, c: CaseId): set<int> {
    set i | 0 <= i < |calls| && calls[i].request.caseId == c && calls[i].phase.Answered?
  }

  function InFlight(calls: seq<Call>, c: CaseId): set<int> {
    set i | 0 <= i < |calls| && calls[i].request.caseId == c && calls[i].phase.Sent?
  }

  function PostCount(refunds: ProviderTable, c: CaseId): nat {
    if RefundV1(c) in refunds then refunds[RefundV1(c)].postCount else 0
  }

  ghost predicate DispatchesCounted(attempts: map<CaseId, Attempt>, calls: seq<Call>) {
    forall c {:trigger attempts[c]} :: c in attempts ==> |CallsOf(calls, c)| == attempts[c].dispatchCount
  }

  ghost predicate PostsCounted(refunds: ProviderTable, calls: seq<Call>) {
    forall c {:trigger PostCount(refunds, c)} :: PostCount(refunds, c) == |AnsweredOf(calls, c)|
  }

  predicate SessionOk(events: map<EventId, Event>, calls: seq<Call>, session: Session) {
    && session.e in events
    && (session.stage.Waiting? ==>
          && session.stage.call < |calls|
          && calls[session.stage.call].request.caseId == events[session.e].caseId)
  }

  ghost predicate SessionsOk(events: map<EventId, Event>, calls: seq<Call>, sessions: map<nat, Session>) {
    forall s {:trigger sessions[s]} :: s in sessions ==> SessionOk(events, calls, sessions[s])
  }

  /** A snapshot with the current version is the current row. */
  predicate SnapshotOk(cell: Cell, snap: CaseRow) {
    && cell.row.Some?
    && snap.org == cell.row.value.org
    && snap.version <= cell.row.value.version
    && (snap.version == cell.row.value.version ==> cell.row == Some(snap))
  }

  predicate TxnOk(cell: Cell, txn: Txn) {
    && SnapshotOk(cell, txn.snap)
    && txn.snap.org == txn.context.org
    && GatePasses(txn.context, txn.cmd.op)
    && (txn.approvals.Some? && txn.snap.version == cell.row.value.version ==> txn.approvals.value == cell.approvals)
  }

  ghost predicate TxnsOk(db: Db, txns: map<nat, Txn>) {
    forall t {:trigger txns[t]} :: t in txns ==> TxnOk(CellOf(db, txns[t].cmd.c), txns[t])
  }

  /** Evidence that a lookup has seen on an attempt is not taken away again. */
  predicate EvidenceStays(k: Lookup, a: Attempt) {
    k.seen.Some? && k.seen.value.evidence.Some? ==> a.evidence.Some?
  }

  predicate LookupOk(cell: Cell, refunds: ProviderTable, k: Lookup) {
    && SnapshotOk(cell, k.snap)
    && Uncertain(k.snap.status)
    && cell.attempt.Some? && EvidenceStays(k, cell.attempt.value)
    && (k.seen.Some? ==> k.seen.value.key == RefundV1(k.c))
    && (!k.observed.NotAsked? ==> k.seen.Some?)
    && (k.observed.Found? ==>
          RefundV1(k.c) in refunds && SameRefund(k.observed.row, refunds[RefundV1(k.c)]))
  }

  ghost predicate LookupsOk(db: Db, refunds: ProviderTable, lookups: map<nat, Lookup>) {
    forall l {:trigger lookups[l]} :: l in lookups ==> LookupOk(CellOf(db, lookups[l].c), refunds, lookups[l])
  }

  ghost predicate NetworkInv(w: World) {
    && ProviderOk(w.db.attempts, w.refunds)
    && RefundIdsUnique(w.refunds)
    && RefsOk(w.db.attempts, w.refunds)
    && CallsOk(w.db.attempts, w.refunds, w.calls)
    && DispatchesCounted(w.db.attempts, w.calls)
    && PostsCounted(w.refunds, w.calls)
    && SessionsOk(w.db.events, w.calls, w.sessions)
  }

  ghost predicate Inv(settings: Settings, w: World) {
    && DbInv(settings, w.db)
    && NetworkInv(w)
    && TxnsOk(w.db, w.txns)
    && LookupsOk(w.db, w.refunds, w.lookups)
  }

  lemma InitialInv(settings: Settings)
    ensures Inv(settings, INITIAL)
  {
    EmptyInv(settings);
    forall c ensures PostCount(INITIAL.refunds, c) == |AnsweredOf(INITIAL.calls, c)| {
      assert AnsweredOf(INITIAL.calls, c) == {};
    }
  }

  /* What a transaction of the services leaves intact outside the database. */

  /** The provider reference of `c`, if there is one now, is that of its stored refund. */
  predicate RefBacked(db: Db, refunds: ProviderTable, c: CaseId) {
    c in db.attempts && db.attempts[c].providerRef.Some? ==>
      RefundV1(c) in refunds && refunds[RefundV1(c)].refundId == db.attempts[c].providerRef.value
  }

  lemma AttemptKept(db: Db, db': Db, c: CaseId)
    requires Evolves(db, db') && c in db.attempts
    ensures c in db'.attempts
    ensures db'.attempts[c].amount == db.attempts[c].amount && db'.attempts[c].currency == db.attempts[c].currency
    ensures db'.attempts[c].dispatchCount == db.attempts[c].dispatchCount
  {
    assert CellEvolves(CellOf(db, c), CellOf(db', c));
  }

  lemma AttemptElsewhere(db: Db, db': Db, c0: CaseId, c: CaseId)
    requires OnlyCell(db, db', c0) && c != c0
    ensures c in db'.attempts <==> c in db.attempts
    ensures c in db.attempts ==> db'.attempts[c] == db.attempts[c]
  {
    assert CellOf(db', c) == CellOf(db, c);
  }

  lemma NetworkKept(settings: Settings, w: World, db': Db, c0: CaseId)
    requires Inv(settings, w) && Keeps(settings, w.db, db', c0) && RefBacked(db', w.refunds, c0)
    ensures ProviderOk(db'.attempts, w.refunds) && RefsOk(db'.attempts, w.refunds)
    ensures CallsOk(db'.attempts, w.refunds, w.calls)
    ensures DispatchesCounted(db'.attempts, w.calls)
  {
    forall k | k in w.refunds
      ensures k.caseId in db'.attempts && RowMatches(w.refunds[k], db'.attempts[k.caseId])
    {
      AttemptKept(w.db, db', k.caseId);
      if k.caseId != c0 {
        AttemptElsewhere(w.db, db', c0, k.caseId);
      }
    }
    forall c | c in db'.attempts
      ensures db'.attempts[c].providerRef.Some? ==>
                RefundV1(c) in w.refunds && w.refunds[RefundV1(c)].refundId == db'.attempts[c].providerRef.value
      ensures |CallsOf(w.calls, c)| == db'.attempts[c].dispatchCount
    {
      if c != c0 {
        AttemptElsewhere(w.db, db', c0, c);
      }
      if c in w.db.attempts {
        AttemptKept(w.db, db', c);
      } else {
        assert CellEvolves(CellOf(w.db, c), CellOf(db', c));
        assert CallsOf(w.calls, c) == {};
      }
    }
    forall i | 0 <= i < |w.calls| ensures CallOk(db'.attempts, w.refunds, w.calls[i]) {
      AttemptKept(w.db, db', w.calls[i].request.caseId);
    }
  }

  lemma SnapshotKept(before: Cell, after: Cell, snap: CaseRow)
    requires SnapshotOk(before, snap) && CellEvolves(before, after)
    ensures SnapshotOk(after, snap)
  {
  }

  lemma ReadersKept(w: World, db': Db)
    requires TxnsOk(w.db, w.txns) && LookupsOk(w.db, w.refunds, w.lookups) && Evolves(w.db, db')
    ensures TxnsOk(db', w.txns) && LookupsOk(db', w.refunds, w.lookups)
  {
    forall t | t in w.txns ensures TxnOk(CellOf(db', w.txns[t].cmd.c), w.txns[t]) {
      SnapshotKept(CellOf(w.db, w.txns[t].cmd.c), CellOf(db', w.txns[t].cmd.c), w.txns[t].snap);
    }
    forall l | l in w.lookups ensures LookupOk(CellOf(db', w.lookups[l].c), w.refunds, w.lookups[l]) {
      SnapshotKept(CellOf(w.db, w.lookups[l].c), CellOf(db', w.lookups[l].c), w.lookups[l].snap);
    }
  }

  lemma SessionsKept(events: map<EventId, Event>, events': map<EventId, Event>, calls: seq<Call>,
                     sessions: map<nat, Session>, sessions': map<nat, Session>)
    requires SessionsOk(events, calls, sessions) && EventsGrow(events, events')
    requires forall s :: s in sessions' ==> s in sessions && sessions'[s] == sessions[s]
    ensures SessionsOk(events', calls, sessions')
  {
    forall s | s in sessions' ensures SessionOk(events', calls, sessions'[s]) {
      assert SessionOk(events, calls, sessions[s]);
    }
  }

  /** A transaction of the services, with any session, command or lookup it ends. */
  lemma TransactionKeeps(settings: Settings, w: World, w': World, c0: CaseId)
    requires Inv(settings, w) && Keeps(settings, w.db, w'.db, c0) && RefBacked(w'.db, w.refunds, c0)
    requires w'.refunds == w.refunds && w'.calls == w.calls
    requires forall s :: s in w'.sessions ==> s in w.sessions && w'.sessions[s] == w.sessions[s]
    requires forall t :: t in w'.txns ==> t in w.txns && w'.txns[t] == w.txns[t]
    requires forall l :: l in w'.lookups ==> l in w.lookups && w'.lookups[l] == w.lookups[l]
    ensures Inv(settings, w')
  {
    NetworkKept(settings, w, w'.db, c0);
    ReadersKept(w, w'.db);
    SessionsKept(w.db.events, w'.db.events, w.calls, w.sessions, w'.sessions);
  }

  /* The commands: a guarded commit acts as if its reads had just been made. */

  lemma GuardPassed(settings: Settings, db: Db, txn: Txn, now: Time, e: EventId)
    requires ReadyToCommit(txn) && CommitOf(settings, db, txn, now, e).Ok?
    ensures GuardHolds(db, txn.cmd.c, txn.snap)
  {
  }

  /** A commit that succeeds on old reads of the case and the approvals acts on current ones. The
      attempt a retry has read is not guarded. */
  lemma CommitIsAtomic(settings: Settings, db: Db, txn: Txn, now: Time, e: EventId)
    requires TxnOk(CellOf(db, txn.cmd.c), txn) && ReadyToCommit(txn)
    requires CommitOf(settings, db, txn, now, e).Ok?
    ensures txn.snap == db.cases[txn.cmd.c]
    ensures txn.cmd.op.ApproveRefundOf? ==> txn.approvals == Some(RefundApprovals(db.approvals, txn.cmd.c))
    ensures ExecOn(settings, db, txn.context, txn.cmd, txn.seen, now, e) == CommitOf(settings, db, txn, now, e)
  {
    GuardPassed(settings, db, txn, now, e);
  }

  /** A case that is not final has no provider reference. */
  lemma RefOnlyWhenFinal(settings: Settings, db: Db, db': Db, refunds: ProviderTable, c: CaseId)
    requires DbInv(settings, db) && Keeps(settings, db, db', c) && RefsOk(db.attempts, refunds)
    requires c in db'.attempts && db'.attempts[c].providerRef.Some? ==>
               c in db.attempts && db'.attempts[c].providerRef == db.attempts[c].providerRef
    ensures RefBacked(db', refunds, c)
  {
  }

  lemma CommandStep(settings: Settings, w: World, t: nat, newEvent: EventId, w': World)
    requires Inv(settings, w) && StepTxnCommit(settings, w, t, newEvent) == Some(w')
    ensures Inv(settings, w') && Keeps(settings, w.db, w'.db, w.txns[t].cmd.c)
    ensures ExecOn(settings, w.db, w.txns[t].context, w.txns[t].cmd, w.txns[t].seen, w.now, newEvent).Ok?
    ensures ExecOn(settings, w.db, w.txns[t].context, w.txns[t].cmd, w.txns[t].seen, w.now, newEvent).value.0 == w'.db
  {
    var txn := w.txns[t];
    var c := txn.cmd.c;
    CommitIsAtomic(settings, w.db, txn, w.now, newEvent);
    var r := CommitOf(settings, w.db, txn, w.now, newEvent).value;
    ExecKeeps(settings, w.db, txn.context, txn.cmd, txn.seen, w.now, newEvent, r);
    CommandRefs(settings, w.db, txn.context, txn.cmd, txn.seen, w.now, newEvent, r);
    RefOnlyWhenFinal(settings, w.db, w'.db, w.refunds, c);
    TransactionKeeps(settings, w, w', c);
  }

  /** No human command writes a provider reference. */
  lemma CommandRefs(settings: Settings, db: Db, context: Context, cmd: Command, seen: Option<Attempt>, now: Time,
                    e: EventId, r: (Db, bool))
    requires DbInv(settings, db) && ExecOn(settings, db, context, cmd, seen, now, e) == Ok(r)
    ensures cmd.c in r.0.attempts && r.0.attempts[cmd.c].providerRef.Some? ==>
              cmd.c in db.attempts && r.0.attempts[cmd.c].providerRef == db.attempts[cmd.c].providerRef
  {
    if cmd.op.ApproveRefundOf? {
      assert CellOk(settings, cmd.c, CellOf(db, cmd.c));
      ApprovalAttempt(settings, db, context, cmd, now, e, r);
    } else {
      PlainAttempt(db, context, cmd, seen, now, e, r.0);
    }
  }

  lemma CreateStep(settings: Settings, w: World, context: Context, c: CaseId, requested: int, currency: string,
                   w': World)
    requires Inv(settings, w) && StepCreate(w, context, c, requested, currency) == Some(w')
    ensures Inv(settings, w') && Keeps(settings, w.db, w'.db, c)
  {
    CreateKeeps(settings, w.db, context, c, requested, currency, w'.db);
    assert CellOk(settings, c, CellOf(w.db, c));
    TransactionKeeps(settings, w, w', c);
  }

  lemma ReadStep(settings: Settings, w: World, t: nat, context: Context, cmd: Command, w': World)
    requires Inv(settings, w)
    requires StepTxnRead(w, t, context, cmd) == Some(w')
    ensures Inv(settings, w') && w'.db == w.db
  {
    OneReader(settings, w, t, w');
  }

  lemma ReadMoreStep(settings: Settings, w: World, t: nat, w': World)
    requires Inv(settings, w) && (StepTxnReadApprovals(w, t) == Some(w') || StepTxnReadAttempt(w, t) == Some(w'))
    ensures Inv(settings, w') && w'.db == w.db
  {
    assert TxnOk(CellOf(w.db, w.txns[t].cmd.c), w.txns[t]);
    OneReader(settings, w, t, w');
  }

  /** Only reader `t` has changed. */
  lemma OneReader(settings: Settings, w: World, t: nat, w': World)
    requires Inv(settings, w) && t in w'.txns && w' == w.(txns := w.txns[t := w'.txns[t]])
    requires TxnOk(CellOf(w.db, w'.txns[t].cmd.c), w'.txns[t])
    ensures Inv(settings, w')
  {
    forall x | x in w'.txns ensures TxnOk(CellOf(w'.db, w'.txns[x].cmd.c), w'.txns[x]) {
      if x != t {
        assert TxnOk(CellOf(w.db, w.txns[x].cmd.c), w.txns[x]);
      }
    }
  }

  lemma LookupReadStep(settings: Settings, w: World, l: nat, context: Context, c: CaseId, w': World)
    requires Inv(settings, w)
    requires || StepLookupReadCase(w, l, context, c) == Some(w')
             || StepLookupReadAttempt(w, l) == Some(w')
             || StepLookupAsk(w, l) == Some(w')
    ensures Inv(settings, w') && w'.db == w.db
  {
    forall x | x in w'.lookups ensures LookupOk(CellOf(w'.db, w'.lookups[x].c), w'.refunds, w'.lookups[x]) {
      if x != l {
        assert LookupOk(CellOf(w.db, w.lookups[x].c), w.refunds, w.lookups[x]);
      } else if l !in w.lookups {
        assert CellOk(settings, c, CellOf(w.db, c));
      } else {
        assert LookupOk(CellOf(w.db, w.lookups[l].c), w.refunds, w.lookups[l]);
        assert CellOk(settings, w.lookups[l].c, CellOf(w.db, w.lookups[l].c));
      }
    }
  }

  /** The stored row of case `c` agrees with its attempt, however often it has been posted. */
  lemma RowOfAttempt(w: World, c: CaseId, row: ProviderRow)
    requires NetworkInv(w) && c in w.db.attempts && RefundV1(c) in w.refunds
    requires SameRefund(row, w.refunds[RefundV1(c)])
    ensures RowMatches(row, w.db.attempts[c])
  {
  }

  lemma LookupCommitStep(settings: Settings, w: World, l: nat, w': World)
    requires Inv(settings, w) && StepLookupCommit(w, l) == Some(w')
    ensures Inv(settings, w') && Keeps(settings, w.db, w'.db, w.lookups[l].c)
  {
    var k := w.lookups[l];
    assert LookupOk(CellOf(w.db, k.c), w.refunds, k);
    if k.observed.Found? {
      RowOfAttempt(w, k.c, k.observed.row);
    }
    var r := Reconcile(w.db, k.c, k.snap, k.seen.value, k.observed).value;
    ReconcileKeeps(settings, w.db, k.c, k.snap, k.seen.value, k.observed, r);
    if !k.observed.Found? {
      AbsentRefs(settings, w.db, k, r);
    }
    TransactionKeeps(settings, w, w', k.c);
  }

  lemma AbsentRefs(settings: Settings, db: Db, k: Lookup, r: (Db, Resolution))
    requires k.c in db.attempts && k.seen.Some? && k.observed.Absent?
    requires Reconcile(db, k.c, k.snap, k.seen.value, k.observed) == Ok(r)
    ensures k.c in r.0.attempts && r.0.attempts[k.c].providerRef == db.attempts[k.c].providerRef
  {
  }

  lemma WebhookStep(settings: Settings, w: World, key: ProviderKey, eventId: string, w': World)
    requires Inv(settings, w) && StepWebhook(w, key, eventId) == Some(w')
    ensures key.RefundV1? && Inv(settings, w') && Keeps(settings, w.db, w'.db, key.caseId)
  {
    var c, row := key.caseId, w.refunds[key];
    RowOfAttempt(w, c, row);
    var r := ProcessWebhook(w.db, PayloadOf(row, key, eventId)).value;
    WebhookKeeps(settings, w.db, row, c, eventId, r);
    TransactionKeeps(settings, w, w', c);
  }

  lemma SessionAdded(settings: Settings, w: World, s: nat, e: EventId, w': World)
    requires Inv(settings, w) && s !in w.sessions && e in w.db.events
    requires w' == w.(sessions := w.sessions[s := Session(e, ClaimHeld)])
    ensures Inv(settings, w')
  {
    forall x | x in w'.sessions ensures SessionOk(w'.db.events, w'.calls, w'.sessions[x]) {
      if x != s {
        assert SessionOk(w.db.events, w.calls, w.sessions[x]);
      }
    }
  }

  lemma ClaimStep(config: Config, w: World, s: nat, e: EventId, w': World)
    requires Inv(config.settings, w) && StepClaim(config, w, s, e) == Some(w')
    ensures Inv(config.settings, w') && Keeps(config.settings, w.db, w'.db, w.db.events[e].caseId)
  {
    var w1 := w.(db := w'.db);
    ClaimKeeps(config.settings, w.db, e, w.now, config.settings.leaseSeconds);
    TransactionKeeps(config.settings, w, w1, w.db.events[e].caseId);
    SessionAdded(config.settings, w1, s, e, w');
  }

  lemma SettleStep(settings: Settings, w: World, s: nat, outcome: Outcome, w': World)
    requires Inv(settings, w) && StepSettle(settings, w, s, outcome) == Some(w')
    ensures Inv(settings, w') && Keeps(settings, w.db, w'.db, w.db.events[w.sessions[s].e].caseId)
  {
    var e := w.sessions[s].e;
    var c := w.db.events[e].caseId;
    var call := w.calls[w.sessions[s].stage.call];
    assert SessionOk(w.db.events, w.calls, w.sessions[s]);
    match outcome
    case TimedOut =>
      SettleTimeoutKeeps(settings, w.db, e, w'.db);
      TimeoutRefs(settings, w.db, e, w'.db);
      TransactionKeeps(settings, w, w', c);
    case RepliedRefused =>
      SettleRefusedKeeps(settings, w.db, e, w.now, w'.db);
      RefusedRefs(settings, w.db, e, w.now, w'.db);
      TransactionKeeps(settings, w, w', c);
    case Replied =>
      assert CallOk(w.db.attempts, w.refunds, call);
      RowOfAttempt(w, c, call.phase.reply);
      SettleReplyKeeps(settings, w.db, e, call.phase.reply, w'.db);
      TransactionKeeps(settings, w, w', c);
  }

  lemma TimeoutRefs(settings: Settings, db: Db, e: EventId, db': Db)
    requires e in db.events && db.events[e].caseId in db.attempts && SettleTimeout(db, e) == Ok(db')
    ensures var c := db.events[e].caseId; c in db'.attempts && db'.attempts[c].providerRef == db.attempts[c].providerRef
  {
  }

  lemma RefusedRefs(settings: Settings, db: Db, e: EventId, now: Time, db': Db)
    requires e in db.events && db.events[e].caseId in db.attempts && SettleRefused(settings, db, e, now) == Ok(db')
    ensures var c := db.events[e].caseId; c in db'.attempts && db'.attempts[c].providerRef == db.attempts[c].providerRef
  {
  }

  lemma EndSessionStep(settings: Settings, w: World, s: nat, w': World)
    requires Inv(settings, w) && w' == w.(sessions := w.sessions - {s})
    ensures Inv(settings, w')
  {
    SessionsKept(w.db.events, w.db.events, w.calls, w.sessions, w'.sessions);
  }

  /** Taking the row of a dispatch out of the cells: readers see the same row and approvals. */
  lemma DispatchReaders(w: World, db': Db, c: CaseId)
    requires TxnsOk(w.db, w.txns) && LookupsOk(w.db, w.refunds, w.lookups)
    requires OnlyCell(w.db, db', c) && CellOf(w.db, c).attempt.Some?
    requires CellOf(db', c) == DispatchedCell(CellOf(w.db, c))
    ensures TxnsOk(db', w.txns) && LookupsOk(db', w.refunds, w.lookups)
  {
    forall t | t in w.txns ensures TxnOk(CellOf(db', w.txns[t].cmd.c), w.txns[t]) {
      assert TxnOk(CellOf(w.db, w.txns[t].cmd.c), w.txns[t]);
    }
    forall l | l in w.lookups ensures LookupOk(CellOf(db', w.lookups[l].c), w.refunds, w.lookups[l]) {
      assert LookupOk(CellOf(w.db, w.lookups[l].c), w.refunds, w.lookups[l]);
    }
  }

  /** What a dispatch does to the attempts: only the status and the count of `c` change. */
  lemma DispatchedAttempts(db: Db, db': Db, c: CaseId)
    requires OnlyCell(db, db', c) && c in db.attempts
    requires CellOf(db', c) == DispatchedCell(CellOf(db, c))
    ensures db'.attempts == db.attempts[c := db.attempts[c].(
                              status := Dispatching, dispatchCount := db.attempts[c].dispatchCount + 1)]
  {
    forall d | d != c
      ensures d in db'.attempts <==> d in db.attempts
      ensures d in db.attempts ==> db'.attempts[d] == db.attempts[d]
    {
      AttemptElsewhere(db, db', c, d);
    }
  }

  lemma CallAdded(calls: seq<Call>, call: Call, d: CaseId)
    ensures |CallsOf(calls + [call], d)| == |CallsOf(calls, d)| + if call.request.caseId == d then 1 else 0
  {
    if call.request.caseId == d {
      assert CallsOf(calls + [call], d) == CallsOf(calls, d) + {|calls|};
    } else {
      assert CallsOf(calls + [call], d) == CallsOf(calls, d);
    }
  }

  /** Recording a dispatch and sending its request go together. */
  lemma DispatchCounted(attempts: map<CaseId, Attempt>, calls: seq<Call>, c: CaseId, call: Call)
    requires DispatchesCounted(attempts, calls) && c in attempts && call.request.caseId == c
    ensures DispatchesCounted(attempts[c := attempts[c].(
                                status := Dispatching, dispatchCount := attempts[c].dispatchCount + 1)],
                              calls + [call])
  {
    var attempts' := attempts[c := attempts[c].(
                       status := Dispatching, dispatchCount := attempts[c].dispatchCount + 1)];
    forall d | d in attempts' ensures |CallsOf(calls + [call], d)| == attempts'[d].dispatchCount {
      CallAdded(calls, call, d);
      assert |CallsOf(calls, d)| == attempts[d].dispatchCount;
    }
  }

  lemma SentNotAnswered(refunds: ProviderTable, calls: seq<Call>, call: Call)
    requires PostsCounted(refunds, calls) && call.phase.Sent?
    ensures PostsCounted(refunds, calls + [call])
  {
    forall d ensures PostCount(refunds, d) == |AnsweredOf(calls + [call], d)| {
      assert AnsweredOf(calls + [call], d) == AnsweredOf(calls, d);
    }
  }

  lemma DispatchCalls(attempts: map<CaseId, Attempt>, refunds: ProviderTable, calls: seq<Call>, c: CaseId,
                      attempts': map<CaseId, Attempt>)
    requires CallsOk(attempts, refunds, calls) && c in attempts && attempts[c].key == RefundV1(c)
    requires attempts' == attempts[c := attempts[c].(
                            status := Dispatching, dispatchCount := attempts[c].dispatchCount + 1)]
    ensures CallsOk(attempts', refunds,
                    calls + [Call(RefundRequest(attempts[c].key, attempts[c].amount, attempts[c].currency, c), Sent)])
  {
    forall i | 0 <= i < |calls| ensures CallOk(attempts', refunds, calls[i]) {
      assert CallOk(attempts, refunds, calls[i]);
    }
  }

  lemma DispatchNetwork(settings: Settings, w: World, c: CaseId, attempts': map<CaseId, Attempt>, calls': seq<Call>)
    requires NetworkInv(w) && c in w.db.attempts && w.db.attempts[c].key == RefundV1(c)
    requires attempts' == w.db.attempts[c := w.db.attempts[c].(
                            status := Dispatching, dispatchCount := w.db.attempts[c].dispatchCount + 1)]
    requires calls' == w.calls + [Call(RequestFor(w.db, c), Sent)]
    ensures ProviderOk(attempts', w.refunds) && RefsOk(attempts', w.refunds)
    ensures CallsOk(attempts', w.refunds, calls')
    ensures DispatchesCounted(attempts', calls') && PostsCounted(w.refunds, calls')
  {
    DispatchCounted(w.db.attempts, w.calls, c, Call(RequestFor(w.db, c), Sent));
    SentNotAnswered(w.refunds, w.calls, Call(RequestFor(w.db, c), Sent));
    DispatchCalls(w.db.attempts, w.refunds, w.calls, c, attempts');
  }

  lemma BeginSessions(w: World, s: nat, c: CaseId, call: Call, sessions': map<nat, Session>)
    requires SessionsOk(w.db.events, w.calls, w.sessions) && s in w.sessions
    requires w.db.events[w.sessions[s].e].caseId == c && call.request.caseId == c
    requires sessions' == w.sessions[s := Session(w.sessions[s].e, Waiting(|w.calls|))]
    ensures SessionsOk(w.db.events, w.calls + [call], sessions')
  {
    forall x | x in sessions' ensures SessionOk(w.db.events, w.calls + [call], sessions'[x]) {
      assert SessionOk(w.db.events, w.calls, w.sessions[x]);
    }
  }

  /** The world after session `s` has recorded a dispatch and sent its request. */
  ghost predicate Dispatched(w: World, s: nat, c: CaseId, w': World) {
    && s in w.sessions && w.sessions[s].e in w.db.events && w.db.events[w.sessions[s].e].caseId == c
    && c in w.db.attempts && w.db.attempts[c].key == RefundV1(c)
    && OnlyCell(w.db, w'.db, c) && CellOf(w'.db, c) == DispatchedCell(CellOf(w.db, c))
    && w' == w.(db := w'.db,
                calls := w.calls + [Call(RequestFor(w.db, c), Sent)],
                sessions := w.sessions[s := Session(w.sessions[s].e, Waiting(|w.calls|))])
    && w'.db.events == w.db.events
  }

  lemma DispatchEffect(settings: Settings, w: World, s: nat, w': World)
    requires DbInv(settings, w.db) && StepBegin(w, s) == Some(w') && |w'.calls| > |w.calls|
    ensures var c := w.db.events[w.sessions[s].e].caseId;
            Dispatched(w, s, c, w') && DbInv(settings, w'.db) && MayDispatch(w.db.attempts[c].status)
  {
    var e := w.sessions[s].e;
    var c := w.db.events[e].caseId;
    DispatchKeeps(settings, w.db, e, w'.db);
    assert CellOk(settings, c, CellOf(w.db, c));
  }

  lemma DispatchedNetwork(settings: Settings, w: World, s: nat, c: CaseId, w': World)
    requires NetworkInv(w) && Dispatched(w, s, c, w')
    ensures NetworkInv(w')
  {
    var call := Call(RequestFor(w.db, c), Sent);
    DispatchedAttempts(w.db, w'.db, c);
    DispatchNetwork(settings, w, c, w'.db.attempts, w.calls + [call]);
    BeginSessions(w, s, c, call, w'.sessions);
  }

  lemma DispatchedInv(settings: Settings, w: World, s: nat, c: CaseId, w': World)
    requires Inv(settings, w) && Dispatched(w, s, c, w') && DbInv(settings, w'.db)
    ensures Inv(settings, w')
  {
    DispatchedNetwork(settings, w, s, c, w');
    DispatchReaders(w, w'.db, c);
  }

  lemma DispatchStep(settings: Settings, w: World, s: nat, w': World)
    requires Inv(settings, w) && StepBegin(w, s) == Some(w') && |w'.calls| > |w.calls|
    ensures Inv(settings, w')
  {
    DispatchEffect(settings, w, s, w');
    DispatchedInv(settings, w, s, w.db.events[w.sessions[s].e].caseId, w');
  }

  lemma BeginStep(settings: Settings, w: World, s: nat, w': World)
    requires Inv(settings, w) && StepBegin(w, s) == Some(w')
    ensures Inv(settings, w')
  {
    var e := w.sessions[s].e;
    assert SessionOk(w.db.events, w.calls, w.sessions[s]);
    if w.db.events[e].status != Processing {
      EndSessionStep(settings, w, s, w');
    } else if !BeginDispatch(w.db, e).value.1 {
      SkipKeeps(settings, w.db, e, w'.db);
      TransactionKeeps(settings, w, w', w.db.events[e].caseId);
    } else {
      DispatchStep(settings, w, s, w');
    }
  }

  /* The provider and the network. */

  lemma CallEndsStep(settings: Settings, w: World, i: nat, phase: Phase, w': World)
    requires Inv(settings, w) && phase in {Refused, Lost} && StepCallEnds(w, i, phase) == Some(w')
    ensures Inv(settings, w')
  {
    CallsRelabelled(w, w', i);
    forall d ensures PostCount(w.refunds, d) == |AnsweredOf(w'.calls, d)| {
      assert AnsweredOf(w'.calls, d) == AnsweredOf(w.calls, d);
    }
    forall x | 0 <= x < |w'.calls| ensures CallOk(w'.db.attempts, w'.refunds, w'.calls[x]) {
      assert CallOk(w.db.attempts, w.refunds, w.calls[x]);
    }
  }

  lemma CallsRelabelled(w: World, w': World, i: nat)
    requires i < |w.calls| == |w'.calls| && w'.calls[i].request == w.calls[i].request
    requires forall j :: 0 <= j < |w.calls| && j != i ==> w'.calls[j] == w.calls[j]
    requires w'.db == w.db && w'.sessions == w.sessions
    requires DispatchesCounted(w.db.attempts, w.calls) && SessionsOk(w.db.events, w.calls, w.sessions)
    ensures DispatchesCounted(w'.db.attempts, w'.calls) && SessionsOk(w'.db.events, w'.calls, w'.sessions)
  {
    forall d | d in w'.db.attempts ensures |CallsOf(w'.calls, d)| == w'.db.attempts[d].dispatchCount {
      assert CallsOf(w'.calls, d) == CallsOf(w.calls, d);
    }
    forall x | x in w'.sessions ensures SessionOk(w'.db.events, w'.calls, w'.sessions[x]) {
      assert SessionOk(w.db.events, w.calls, w.sessions[x]);
    }
  }

  /** What storing a request does to the provider's table. */
  lemma StoredTable(w: World, request: RefundRequest, freshId: string, refunds': ProviderTable)
    requires ProviderOk(w.db.attempts, w.refunds) && RefundIdsUnique(w.refunds) && RefsOk(w.db.attempts, w.refunds)
    requires FreshRefundId(w.refunds, freshId) && CallOk(w.db.attempts, w.refunds, Call(request, Sent))
    requires refunds' == Stored(w.refunds, request, freshId)
    ensures ProviderOk(w.db.attempts, refunds') && RefundIdsUnique(refunds') && RefsOk(w.db.attempts, refunds')
    ensures request.key in refunds'
    ensures forall k :: k in w.refunds ==> k in refunds' && SameRefund(w.refunds[k], refunds'[k])
    ensures forall d :: PostCount(refunds', d) == PostCount(w.refunds, d) + (if d == request.caseId then 1 else 0)
  {
    StoredIds(w.refunds, request, freshId, refunds');
    StoredCounts(w.refunds, request, freshId, refunds');
  }

  lemma StoredIds(refunds: ProviderTable, request: RefundRequest, freshId: string, refunds': ProviderTable)
    requires RefundIdsUnique(refunds) && FreshRefundId(refunds, freshId)
    requires refunds' == Stored(refunds, request, freshId)
    ensures RefundIdsUnique(refunds')
  {
  }

  lemma StoredCounts(refunds: ProviderTable, request: RefundRequest, freshId: string, refunds': ProviderTable)
    requires refunds' == Stored(refunds, request, freshId) && request.key == RefundV1(request.caseId)
    ensures forall d :: PostCount(refunds', d) == PostCount(refunds, d) + (if d == request.caseId then 1 else 0)
  {
  }

  lemma StoredPosts(w: World, i: nat, calls': seq<Call>, refunds': ProviderTable)
    requires PostsCounted(w.refunds, w.calls) && i < |w.calls| && w.calls[i].phase.Sent?
    requires |calls'| == |w.calls| && calls'[i].request == w.calls[i].request && calls'[i].phase.Answered?
    requires forall j :: 0 <= j < |w.calls| && j != i ==> calls'[j] == w.calls[j]
    requires forall d :: PostCount(refunds', d)
                      == PostCount(w.refunds, d) + (if d == w.calls[i].request.caseId then 1 else 0)
    ensures PostsCounted(refunds', calls')
  {
    forall d ensures PostCount(refunds', d) == |AnsweredOf(calls', d)| {
      if d == w.calls[i].request.caseId {
        assert AnsweredOf(calls', d) == AnsweredOf(w.calls, d) + {i};
      } else {
        assert AnsweredOf(calls', d) == AnsweredOf(w.calls, d);
      }
    }
  }

  lemma StoredLookups(w: World, refunds': ProviderTable)
    requires LookupsOk(w.db, w.refunds, w.lookups)
    requires forall k :: k in w.refunds ==> k in refunds' && SameRefund(w.refunds[k], refunds'[k])
    ensures LookupsOk(w.db, refunds', w.lookups)
  {
    forall l | l in w.lookups ensures LookupOk(CellOf(w.db, w.lookups[l].c), refunds', w.lookups[l]) {
      assert LookupOk(CellOf(w.db, w.lookups[l].c), w.refunds, w.lookups[l]);
    }
  }

  lemma StoreStep(settings: Settings, w: World, i: nat, freshId: string, w': World)
    requires Inv(settings, w) && StepProviderStores(w, i, freshId) == Some(w')
    ensures Inv(settings, w')
  {
    var request := w.calls[i].request;
    assert CallOk(w.db.attempts, w.refunds, w.calls[i]);
    StoredTable(w, request, freshId, w'.refunds);
    CallsRelabelled(w, w', i);
    StoredPosts(w, i, w'.calls, w'.refunds);
    StoredLookups(w, w'.refunds);
    forall x | 0 <= x < |w'.calls| ensures CallOk(w'.db.attempts, w'.refunds, w'.calls[x]) {
      assert CallOk(w.db.attempts, w.refunds, w.calls[x]);
    }
  }

  predicate ReadsOnly(step: Step) {
    || step.Tick? || step.TxnRead? || step.TxnReadApprovals? || step.TxnReadAttempt? || step.TxnAbort?
    || step.LookupReadCase? || step.LookupReadAttempt? || step.LookupAsk? || step.LookupAbort?
  }

  lemma LookingUpKeepsInv(config: Config, w: World, step: Step, w': World)
    requires step.LookupReadCase? || step.LookupReadAttempt? || step.LookupAsk?
    requires Inv(config.settings, w) && Next(config, w, step) == Some(w')
    ensures Inv(config.settings, w')
  {
    match step
    case LookupReadCase(l, context, c) => LookupReadStep(config.settings, w, l, context, c, w');
    case LookupReadAttempt(l) => LookupReadStep(config.settings, w, l, w.lookups[l].context, w.lookups[l].c, w');
    case LookupAsk(l) => LookupReadStep(config.settings, w, l, w.lookups[l].context, w.lookups[l].c, w');
  }

  lemma ReadingKeepsInv(config: Config, w: World, step: Step, w': World)
    requires ReadsOnly(step) && Inv(config.settings, w) && Next(config, w, step) == Some(w')
    ensures Inv(config.settings, w')
  {
    match step
    case TxnRead(t, context, cmd) => ReadStep(config.settings, w, t, context, cmd, w');
    case TxnReadApprovals(t) => ReadMoreStep(config.settings, w, t, w');
    case TxnReadAttempt(t) => ReadMoreStep(config.settings, w, t, w');
    case _ =>
      if step.LookupReadCase? || step.LookupReadAttempt? || step.LookupAsk? {
        LookingUpKeepsInv(config, w, step, w');
      }
  }

  predicate OfNetwork(step: Step) {
    step.Begin? || step.ProviderStores? || step.ProviderRefuses? || step.RequestLost? || step.Crash?
  }

  lemma NetworkKeepsInv(config: Config, w: World, step: Step, w': World)
    requires OfNetwork(step) && Inv(config.settings, w) && Next(config, w, step) == Some(w')
    ensures Inv(config.settings, w')
  {
    match step
    case Begin(s) =>
      NextBegins(config, w, s, w');
      BeginStep(config.settings, w, s, w');
    case ProviderStores(i, freshId) => StoreStep(config.settings, w, i, freshId, w');
    case ProviderRefuses(i) => CallEndsStep(config.settings, w, i, Refused, w');
    case RequestLost(i) => CallEndsStep(config.settings, w, i, Lost, w');
    case Crash(s) => EndSessionStep(config.settings, w, s, w');
  }

  predicate Commits(step: Step) {
    step.Create? || step.TxnCommit? || step.LookupCommit? || step.Webhook?
  }

  lemma CommittingKeepsInv(config: Config, w: World, step: Step, w': World)
    requires Commits(step) && Inv(config.settings, w) && Next(config, w, step) == Some(w')
    ensures Inv(config.settings, w')
  {
    match step
    case Create(context, c, requested, currency) =>
      NextCreates(config, w, context, c, requested, currency, w');
      CreateStep(config.settings, w, context, c, requested, currency, w');
    case TxnCommit(t, newEvent) =>
      NextCommits(config, w, t, newEvent, w');
      CommandStep(config.settings, w, t, newEvent, w');
    case LookupCommit(l) =>
      NextReconciles(config, w, l, w');
      LookupCommitStep(config.settings, w, l, w');
    case Webhook(key, eventId) =>
      NextDelivers(config, w, key, eventId, w');
      WebhookStep(config.settings, w, key, eventId, w');
  }

  lemma WorkingKeepsInv(config: Config, w: World, step: Step, w': World)
    requires step.Claim? || step.Settle?
    requires Inv(config.settings, w) && Next(config, w, step) == Some(w')
    ensures Inv(config.settings, w')
  {
    match step
    case Claim(s, e) =>
      NextClaims(config, w, s, e, w');
      ClaimStep(config, w, s, e, w');
    case Settle(s, outcome) =>
      NextSettles(config, w, s, outcome, w');
      SettleStep(config.settings, w, s, outcome, w');
  }

  /** Every step of the protocol keeps the invariant. */
  lemma StepKeepsInv(config: Config, w: World, step: Step, w': World)
    requires Inv(config.settings, w) && Next(config, w, step) == Some(w')
    ensures Inv(config.settings, w')
  {
    if ReadsOnly(step) {
      ReadingKeepsInv(config, w, step, w');
    } else if OfNetwork(step) {
      NetworkKeepsInv(config, w, step, w');
    } else if Commits(step) {
      CommittingKeepsInv(config, w, step, w');
    } else {
      WorkingKeepsInv(config, w, step, w');
    }
  }
}
