/** What overlapping leases cost (level FREE): how a refund may be dispatched again although its outcome
    was unknown, and what a refusal says about the provider. */
module Overlap {
  import opened Domain
  import opened Tables
  import opened CaseStore
  import opened Payments
  import opened Cells
  import opened Ledger
  import opened Protocol
  import opened Safety
  import opened Guarantees
  import opened Exclusive
  import opened NoBlindRetry
  import opened Attempts

  /* What readers and the network keep from world to world. */

  /** A transaction has either just begun, or keeps what it has read of the attempt, or has just read it. */
  predicate ReadsOn(w: World, w': World, t: nat)
    requires t in w'.txns
  {
    var after := w'.txns[t];
    if t !in w.txns then after.seen.None?
    else
      && after.cmd == w.txns[t].cmd
      && (after.seen == w.txns[t].seen || after.seen == AttemptOf(w.db, after.context, after.cmd.c))
  }

  lemma StepReadsOn(config: Config, w: World, step: Step, w': World, t: nat)
    requires Next(config, w, step) == Some(w') && t in w'.txns
    ensures ReadsOn(w, w', t)
  {
    if !step.TxnRead? && !step.TxnReadApprovals? && !step.TxnReadAttempt? {
      OthersReadNothing(config, w, step, w', t);
    }
  }

  lemma OthersReadNothing(config: Config, w: World, step: Step, w': World, t: nat)
    requires Next(config, w, step) == Some(w') && t in w'.txns
    requires !step.TxnRead? && !step.TxnReadApprovals? && !step.TxnReadAttempt?
    ensures t in w.txns && w'.txns[t] == w.txns[t]
  {
  }

  lemma RunReadsOn(config: Config, run: Run, m: nat, t: nat)
    requires IsRun(config, run) && m < |run.steps| && t in run.worlds[m + 1].txns
    ensures ReadsOn(run.worlds[m], run.worlds[m + 1], t)
  {
    assert Taken(config, run, m);
    StepReadsOn(config, run.worlds[m], run.steps[m], run.worlds[m + 1], t);
  }

  /** Requests are never taken back, a call that has ended stays as it is, and a new request is for a case
      whose attempt may be dispatched. */
  ghost predicate CallsGrow(w: World, w': World) {
    && |w.calls| <= |w'.calls| <= |w.calls| + 1
    && (forall j {:trigger w.calls[j]} :: 0 <= j < |w.calls| ==>
          w'.calls[j].request == w.calls[j].request && (w.calls[j].phase.Sent? || w'.calls[j] == w.calls[j]))
    && (|w'.calls| > |w.calls| ==>
          var c := w'.calls[|w.calls|].request.caseId;
          c in w.db.attempts && MayDispatch(w.db.attempts[c].status))
  }

  lemma StepCallsGrow(config: Config, w: World, step: Step, w': World)
    requires Inv(config.settings, w) && Next(config, w, step) == Some(w')
    ensures CallsGrow(w, w')
  {
    if step.Begin? {
      BeginCalls(config.settings, w, step.s, w');
    } else {
      OtherCalls(config, w, step, w');
    }
  }

  lemma BeginCalls(settings: Settings, w: World, s: nat, w': World)
    requires DbInv(settings, w.db) && StepBegin(w, s) == Some(w')
    ensures CallsGrow(w, w')
  {
    if |w'.calls| > |w.calls| {
      DispatchEffect(settings, w, s, w');
    } else {
      NoCallBegun(w, s, w');
    }
  }

  lemma NoCallBegun(w: World, s: nat, w': World)
    requires StepBegin(w, s) == Some(w') && |w'.calls| <= |w.calls|
    ensures w'.calls == w.calls
  {
  }

  lemma OtherCalls(config: Config, w: World, step: Step, w': World)
    requires !step.Begin? && Next(config, w, step) == Some(w')
    ensures |w'.calls| == |w.calls| && CallsGrow(w, w')
  {
  }

  /** What a step of a run does to case `c` and to the calls. */
  lemma RunStepEffects(config: Config, run: Run, m: nat, c: CaseId)
    requires IsRun(config, run) && m < |run.steps|
    ensures NetworkInv(run.worlds[m]) && Grounded(run.worlds[m], run.steps[m], c)
    ensures c in run.worlds[m].db.attempts ==> AttemptMoves(run.worlds[m], run.steps[m], run.worlds[m + 1], c)
    ensures CallsGrow(run.worlds[m], run.worlds[m + 1])
  {
    RunKeepsInv(config, run, m);
    assert Taken(config, run, m);
    StepIsGrounded(config, run.worlds[m], run.steps[m], run.worlds[m + 1], c);
    StepCallsGrow(config, run.worlds[m], run.steps[m], run.worlds[m + 1]);
    if c in run.worlds[m].db.attempts {
      StepMovesAttempt(config, run.worlds[m], run.steps[m], run.worlds[m + 1], c);
    }
  }

  /* While the outcome is unknown. */

  /** The attempt is unknown, or has been confirmed since. */
  predicate Undecided(w: World, c: CaseId) {
    c in w.db.attempts && w.db.attempts[c].status in {Unknown, Succeeded}
  }

  ghost predicate UndecidedThrough(run: Run, n: nat, m: nat, c: CaseId) {
    forall x {:trigger run.worlds[x]} :: n <= x <= m && x < |run.worlds| ==> Undecided(run.worlds[x], c)
  }

  /** The steps after which an attempt that was unknown or confirmed is neither. */
  predicate Reopens(w: World, step: Step, c: CaseId) {
    FindsNothing(w, step, c) || RefusesFor(w, step, c) || RetriesFor(w, step, c)
  }

  lemma UndecidedStep(config: Config, run: Run, m: nat, c: CaseId)
    requires IsRun(config, run) && m < |run.steps| && Undecided(run.worlds[m], c)
    ensures Undecided(run.worlds[m + 1], c) || Reopens(run.worlds[m], run.steps[m], c)
    ensures Dispatches(CellOf(run.worlds[m + 1].db, c)) == Dispatches(CellOf(run.worlds[m].db, c))
  {
    RunStepEffects(config, run, m, c);
    UndecidedAfter(run.worlds[m], run.steps[m], c, run.worlds[m].db.attempts[c]);
  }

  lemma UndecidedAfter(w: World, step: Step, c: CaseId, a: Attempt)
    requires Grounded(w, step, c) && a.status in {Unknown, Succeeded}
    ensures var a' := AttemptAfter(w, step, c, a);
            (a'.status in {Unknown, Succeeded} || Reopens(w, step, c)) && a'.dispatchCount == a.dispatchCount
  {
  }

  lemma {:induction false} FirstReopening(config: Config, run: Run, n: nat, k: nat, c: CaseId) returns (m: nat)
    requires IsRun(config, run) && n <= k < |run.worlds|
    requires Undecided(run.worlds[n], c) && !Undecided(run.worlds[k], c)
    ensures n <= m < k && UndecidedThrough(run, n, m, c) && Reopens(run.worlds[m], run.steps[m], c)
    decreases k - n
  {
    UndecidedStep(config, run, n, c);
    if Undecided(run.worlds[n + 1], c) {
      m := FirstReopening(config, run, n + 1, k, c);
    } else {
      m := n;
    }
  }

  lemma NoNewCall(w: World, w': World, c: CaseId, j: nat)
    requires CallsGrow(w, w') && Undecided(w, c)
    requires j < |w'.calls| && w'.calls[j].request.caseId == c
    ensures j < |w.calls| && w.calls[j].request.caseId == c
  {
    assert j < |w.calls| ==> w'.calls[j].request == w.calls[j].request;
  }

  /** What is sent meanwhile is for other cases. */
  lemma {:induction false} NothingIsSent(config: Config, run: Run, n: nat, m: nat, c: CaseId, j: nat)
    requires IsRun(config, run) && n <= m < |run.worlds| && UndecidedThrough(run, n, m, c)
    requires j < |run.worlds[m].calls| && run.worlds[m].calls[j].request.caseId == c
    ensures j < |run.worlds[n].calls|
    decreases m - n
  {
    if n < m {
      RunStepEffects(config, run, m - 1, c);
      NoNewCall(run.worlds[m - 1], run.worlds[m], c, j);
      NothingIsSent(config, run, n, m - 1, c, j);
    }
  }

  /** A retry that goes ahead meanwhile has read the failed attempt before. */
  lemma {:induction false} FailureWasReadBefore(config: Config, run: Run, n: nat, m: nat, c: CaseId, t: nat)
    requires IsRun(config, run) && n <= m < |run.worlds| && UndecidedThrough(run, n, m, c)
    requires t in run.worlds[m].txns && run.worlds[m].txns[t].cmd.c == c
    requires run.worlds[m].txns[t].seen.Some?
    requires run.worlds[m].txns[t].seen.value.status == AttemptStatus.Failed
    ensures t in run.worlds[n].txns && run.worlds[n].txns[t].cmd.c == c
    ensures run.worlds[n].txns[t].seen == run.worlds[m].txns[t].seen
    decreases m - n
  {
    if n < m {
      RunReadsOn(config, run, m - 1, t);
      assert Undecided(run.worlds[m - 1], c);
      FailureWasReadBefore(config, run, n, m - 1, c, t);
    }
  }

  /** The refusal settled at `m` is the answer to a call already sent in the world `n`. */
  predicate RefusesEarlierCall(run: Run, n: nat, m: nat, c: CaseId)
    requires |run.worlds| == |run.steps| + 1 && n < |run.worlds| && m < |run.steps|
  {
    var w, step := run.worlds[m], run.steps[m];
    && RefusesFor(w, step, c)
    && w.sessions[step.s].stage.Waiting?
    && w.sessions[step.s].stage.call < |run.worlds[n].calls|
    && run.worlds[n].calls[w.sessions[step.s].stage.call].request.caseId == c
  }

  /** The retry committed at `m` had read a failed attempt when the world was `n` at the latest. */
  predicate RetriesOnEarlierRead(run: Run, n: nat, m: nat, c: CaseId)
    requires |run.worlds| == |run.steps| + 1 && n < |run.worlds| && m < |run.steps|
  {
    && RetriesFor(run.worlds[m], run.steps[m], c)
    && run.steps[m].t in run.worlds[n].txns
    && run.worlds[n].txns[run.steps[m].t].seen == run.worlds[m].txns[run.steps[m].t].seen
  }

  lemma RefusedCallWasSent(config: Config, run: Run, n: nat, m: nat, c: CaseId)
    requires IsRun(config, run) && n <= m < |run.steps| && UndecidedThrough(run, n, m, c)
    requires RefusesFor(run.worlds[m], run.steps[m], c)
    ensures RefusesEarlierCall(run, n, m, c)
  {
    var w, s := run.worlds[m], run.steps[m].s;
    RunStepEffects(config, run, m, c);
    assert SessionOk(w.db.events, w.calls, w.sessions[s]);
    NothingIsSent(config, run, n, m, c, w.sessions[s].stage.call);
    SameRequest(config, run, n, m, w.sessions[s].stage.call);
  }

  lemma {:induction false} SameRequest(config: Config, run: Run, n: nat, m: nat, j: nat)
    requires IsRun(config, run) && n <= m < |run.worlds| && j < |run.worlds[n].calls|
    ensures j < |run.worlds[m].calls| && run.worlds[m].calls[j].request == run.worlds[n].calls[j].request
    ensures !run.worlds[n].calls[j].phase.Sent? ==> run.worlds[m].calls[j] == run.worlds[n].calls[j]
    decreases m - n
  {
    if n < m {
      SameRequest(config, run, n, m - 1, j);
      RunStepEffects(config, run, m - 1, 0);
      assert run.worlds[m - 1].calls[j] == run.worlds[m - 1].calls[j];
    }
  }

  lemma DispatchIsDecided(config: Config, run: Run, k: nat, c: CaseId)
    requires IsRun(config, run) && k < |run.steps| && c in run.worlds[k].db.attempts && DispatchesAt(run, k, c)
    ensures !Undecided(run.worlds[k], c)
  {
    if Undecided(run.worlds[k], c) {
      UndecidedStep(config, run, k, c);
    }
  }

  /** Where the answer that the lookup `l` holds in the world `m` comes from: it has been given since the
      world `n`, when the provider held no refund, or the lookup held it then. */
  ghost predicate AnsweredSince(run: Run, n: nat, m: nat, l: nat, asked: nat)
    requires |run.worlds| == |run.steps| + 1 && n <= m < |run.worlds|
  {
    && l in run.worlds[m].lookups
    && if n <= asked < m
       then run.steps[asked] == LookupAsk(l)
            && run.worlds[m].lookups[l].seen.Some?
            && run.worlds[m].lookups[l].seen.value.key !in run.worlds[asked].refunds
       else l in run.worlds[n].lookups && run.worlds[n].lookups[l] == run.worlds[m].lookups[l]
  }

  lemma {:induction false} WhenAnswered(config: Config, run: Run, n: nat, m: nat, l: nat) returns (asked: nat)
    requires IsRun(config, run) && n <= m < |run.worlds|
    requires l in run.worlds[m].lookups && run.worlds[m].lookups[l].observed.Absent?
    ensures AnsweredSince(run, n, m, l, asked)
    decreases m - n
  {
    if n == m {
      asked := m;
    } else if run.steps[m - 1] == LookupAsk(l) {
      AnswerChanges(config, run, m - 1, l);
      asked := m - 1;
    } else {
      AnswerChanges(config, run, m - 1, l);
      asked := WhenAnswered(config, run, n, m - 1, l);
      if !(n <= asked < m - 1) {
        asked := m;
      }
    }
  }

  /** One step back from a lookup that found nothing: it has just asked, or is as it was. */
  lemma AnswerChanges(config: Config, run: Run, m: nat, l: nat)
    requires IsRun(config, run) && m < |run.steps|
    requires l in run.worlds[m + 1].lookups && run.worlds[m + 1].lookups[l].observed.Absent?
    ensures l in run.worlds[m].lookups
    ensures var k, k' := run.worlds[m].lookups[l], run.worlds[m + 1].lookups[l];
            if run.steps[m] == LookupAsk(l)
            then k'.seen.Some? && k'.seen.value.key !in run.worlds[m].refunds
            else k' == k
  {
    var w, w', step := run.worlds[m], run.worlds[m + 1], run.steps[m];
    assert Taken(config, run, m);
    if l !in w.lookups {
      LookupAppears(config, w, step, w', l);
      assert false;
    }
    LookupChanges(config, w, step, w', l);
    AskedAfterReading(config, run, m, l);
  }

  lemma AskedAfterReading(config: Config, run: Run, m: nat, l: nat)
    requires IsRun(config, run) && m < |run.worlds| && l in run.worlds[m].lookups
    ensures run.worlds[m].lookups[l].observed.NotAsked? || run.worlds[m].lookups[l].seen.Some?
  {
    RunKeepsInv(config, run, m);
    var w := run.worlds[m];
    assert LookupOk(CellOf(w.db, w.lookups[l].c), w.refunds, w.lookups[l]);
  }

  /** The absence committed at `m` is evidence given since the world `n`: the provider was asked at `asked`
      and held no refund. */
  ghost predicate AbsenceLearnt(run: Run, n: nat, asked: nat, m: nat, c: CaseId)
    requires |run.worlds| == |run.steps| + 1 && m < |run.steps|
  {
    && n <= asked < m
    && FindsNothing(run.worlds[m], run.steps[m], c)
    && run.steps[asked] == LookupAsk(run.steps[m].l)
    && RefundV1(c) !in run.worlds[asked].refunds
  }

  /** The absence committed at `m` is an answer that the lookup already held in the world `n`. */
  predicate CommitsEarlierAnswer(run: Run, n: nat, m: nat, c: CaseId)
    requires |run.worlds| == |run.steps| + 1 && n < |run.worlds| && m < |run.steps|
  {
    && FindsNothing(run.worlds[m], run.steps[m], c)
    && run.steps[m].l in run.worlds[n].lookups
    && run.worlds[n].lookups[run.steps[m].l] == run.worlds[m].lookups[run.steps[m].l]
  }

  /** The case is as the lookup under way has read it, and unknown. */
  predicate StillAsRead(w: World, k: Lookup) {
    k.c in w.db.cases && w.db.cases[k.c] == k.snap && k.snap.status == RefundUnknown
  }

  lemma AbsenceCommits(config: Config, run: Run, m: nat, c: CaseId)
    requires IsRun(config, run) && m < |run.steps| && FindsNothing(run.worlds[m], run.steps[m], c)
    ensures var k := run.worlds[m].lookups[run.steps[m].l];
            && k.seen.value.key == RefundV1(c)
            && (k.snap.status == NeedsReconciliation || StillAsRead(run.worlds[m], k))
  {
    RunKeepsInv(config, run, m);
    LookupTaken(config, run, m);
    AbsenceTaken(config.settings, run.worlds[m], run.steps[m].l, run.worlds[m + 1]);
  }

  lemma LookupTaken(config: Config, run: Run, m: nat)
    requires IsRun(config, run) && m < |run.steps| && run.steps[m].LookupCommit?
    ensures StepLookupCommit(run.worlds[m], run.steps[m].l) == Some(run.worlds[m + 1])
  {
    assert Taken(config, run, m);
    NextReconciles(config, run.worlds[m], run.steps[m].l, run.worlds[m + 1]);
  }

  lemma AbsenceTaken(settings: Settings, w: World, l: nat, w': World)
    requires Inv(settings, w) && StepLookupCommit(w, l) == Some(w') && FindsNothing(w, LookupCommit(l), w.lookups[l].c)
    ensures var k := w.lookups[l];
            && k.seen.value.key == RefundV1(k.c)
            && (k.snap.status == NeedsReconciliation || StillAsRead(w, k))
  {
    assert LookupOk(CellOf(w.db, w.lookups[l].c), w.refunds, w.lookups[l]);
    LookupEffect(settings, w, l, w');
  }

  /** A lookup committed at `m` with an answer it held at `n`: the row it has read, if that is the current
      one, was the current one all the time in between. */
  lemma AsReadSince(config: Config, run: Run, n: nat, m: nat, l: nat)
    requires IsRun(config, run) && 0 < n <= m < |run.worlds| && l in run.worlds[n].lookups
    requires l in run.worlds[m].lookups && run.worlds[n].lookups[l] == run.worlds[m].lookups[l]
    requires run.worlds[n].lookups[l].observed.Absent? && StillAsRead(run.worlds[m], run.worlds[m].lookups[l])
    ensures StillAsRead(run.worlds[n - 1], run.worlds[m].lookups[l])
  {
    var k := run.worlds[n].lookups[l];
    var begun, asked := LookupOrigin(config, run, n, l);
    RowStayed(config, run, begun, n - 1, m, k.c);
  }

  lemma AbsenceIsOldOrNew(config: Config, run: Run, n: nat, m: nat, c: CaseId) returns (asked: nat)
    requires IsRun(config, run) && 0 < n <= m < |run.steps| && FindsNothing(run.worlds[m], run.steps[m], c)
    ensures AbsenceLearnt(run, n, asked, m, c) || OldAnswer(run, n, m, c)
  {
    var l := run.steps[m].l;
    AbsenceCommits(config, run, m, c);
    asked := WhenAnswered(config, run, n, m, l);
    if !(n <= asked < m) && StillAsRead(run.worlds[m], run.worlds[m].lookups[l]) {
      AsReadSince(config, run, n, m, l);
    }
  }

  /** The absence committed at `m` is an answer given before the world `n`, to a lookup that had read the
      case while it needed reconciliation, or when it was already as unknown as it was just before `n`. */
  predicate OldAnswer(run: Run, n: nat, m: nat, c: CaseId)
    requires |run.worlds| == |run.steps| + 1 && 0 < n < |run.worlds| && m < |run.steps|
  {
    && CommitsEarlierAnswer(run, n, m, c)
    && var k := run.worlds[m].lookups[run.steps[m].l];
       k.snap.status == NeedsReconciliation || StillAsRead(run.worlds[n - 1], k)
  }

  /** A refund whose outcome has become unknown is dispatched again only after the provider has been asked
      meanwhile and has known nothing, or after one of three other steps, before which the attempt has
      stayed unknown or been confirmed and nothing has been sent. These are the blind ways: the refusal of
      another worker, whose call was already on its way; a retry committed by somebody who had read a
      failed attempt before; and a lookup committed with an answer from before. */
  lemma BlindDispatchNeedsOverlap(config: Config, run: Run, i: nat, k: nat, c: CaseId) returns (asked: nat, m: nat)
    requires IsRun(config, run) && i < k < |run.steps|
    requires BecomesUnknown(run, i, c) && DispatchesAt(run, k, c)
    ensures i < m < k && UndecidedThrough(run, i + 1, m, c)
    ensures || AbsenceLearnt(run, i + 1, asked, m, c)
            || RefusesEarlierCall(run, i + 1, m, c)
            || RetriesOnEarlierRead(run, i + 1, m, c)
            || OldAnswer(run, i + 1, m, c)
  {
    RunRemembers(config, run, i + 1, k, c);
    DispatchIsDecided(config, run, k, c);
    m := FirstReopening(config, run, i + 1, k, c);
    asked := m;
    if RefusesFor(run.worlds[m], run.steps[m], c) {
      RefusedCallWasSent(config, run, i + 1, m, c);
    } else if RetriesFor(run.worlds[m], run.steps[m], c) {
      FailureWasReadBefore(config, run, i + 1, m, c, run.steps[m].t);
    } else {
      asked := AbsenceIsOldOrNew(config, run, i + 1, m, c);
    }
  }

  /* What a refusal says about the provider. */

  /** A call of case `c` other than `except` has been stored. */
  ghost predicate StoredCall(calls: seq<Call>, c: CaseId, except: int) {
    exists j :: 0 <= j < |calls| && j != except && calls[j].request.caseId == c && calls[j].phase.Answered?
  }

  lemma StoredWhenAnswered(w: World, c: CaseId)
    requires NetworkInv(w)
    ensures RefundV1(c) in w.refunds <==> StoredCall(w.calls, c, -1)
  {
    assert PostCount(w.refunds, c) == |AnsweredOf(w.calls, c)|;
    if StoredCall(w.calls, c, -1) {
      var j :| 0 <= j < |w.calls| && w.calls[j].request.caseId == c && w.calls[j].phase.Answered?;
      assert j in AnsweredOf(w.calls, c);
    } else {
      assert AnsweredOf(w.calls, c) == {};
    }
  }

  /** The provider holds a refund of the case exactly when one of the requests for it has been stored. */
  lemma StoredExactlyWhenAnswered(config: Config, run: Run, i: nat, c: CaseId)
    requires IsRun(config, run) && i < |run.worlds|
    ensures RefundV1(c) in run.worlds[i].refunds <==> StoredCall(run.worlds[i].calls, c, -1)
  {
    RunKeepsInv(config, run, i);
    StoredWhenAnswered(run.worlds[i], c);
  }

  /** A refusal marks the attempt failed; the provider holds nothing exactly when no other request for the
      case has been stored. */
  lemma RefusedMeansNothingStoredExactly(config: Config, run: Run, i: nat, c: CaseId)
    requires IsRun(config, run) && i < |run.steps| && RefusesFor(run.worlds[i], run.steps[i], c)
    ensures AttemptIs(CellOf(run.worlds[i + 1].db, c), AttemptStatus.Failed)
    ensures var w, w' := run.worlds[i], run.worlds[i + 1];
            && w.sessions[run.steps[i].s].stage.Waiting?
            && (RefundV1(c) in w'.refunds <==> StoredCall(w'.calls, c, w.sessions[run.steps[i].s].stage.call))
  {
    var w, w', s := run.worlds[i], run.worlds[i + 1], run.steps[i].s;
    RunStepEffects(config, run, i, c);
    RunKeepsInv(config, run, i + 1);
    StoredWhenAnswered(w', c);
    assert w'.calls[w.sessions[s].stage.call] == w.calls[w.sessions[s].stage.call];
  }

  /** A request for case `c` has been refused. */
  ghost predicate RefusedCall(calls: seq<Call>, c: CaseId) {
    exists j :: 0 <= j < |calls| && calls[j].request.caseId == c && calls[j].phase.Refused?
  }

  /** The attempt has been dispatched once and failed, and not by a lookup. */
  predicate FailedAtOnce(db: Db, c: CaseId) {
    && c in db.attempts
    && db.attempts[c].status == AttemptStatus.Failed
    && db.attempts[c].dispatchCount == 1
    && db.attempts[c].evidence.None?
  }

  lemma RefusedCallStays(w: World, w': World, c: CaseId)
    requires CallsGrow(w, w') && RefusedCall(w.calls, c)
    ensures RefusedCall(w'.calls, c)
  {
    var j :| 0 <= j < |w.calls| && w.calls[j].request.caseId == c && w.calls[j].phase.Refused?;
    assert w'.calls[j] == w.calls[j];
  }

  lemma FailedByRefusal(w: World, step: Step, c: CaseId)
    requires Grounded(w, step, c) && c in w.db.attempts
    requires var a' := AttemptAfter(w, step, c, w.db.attempts[c]);
             a'.status == AttemptStatus.Failed && a'.dispatchCount == 1 && a'.evidence.None?
    ensures w.db.attempts[c] == AttemptAfter(w, step, c, w.db.attempts[c]) || RefusesFor(w, step, c)
  {
  }

  lemma NewAttemptsAreFresh(config: Config, run: Run, m: nat, c: CaseId)
    requires IsRun(config, run) && m < |run.steps| && c in run.worlds[m + 1].db.attempts
    ensures c in run.worlds[m].db.attempts || run.worlds[m + 1].db.attempts[c].dispatchCount == 0
  {
    RunStep(config, run, m);
    assert CellEvolvesOrDispatches(CellOf(run.worlds[m].db, c), CellOf(run.worlds[m + 1].db, c));
  }

  lemma {:induction false} FailedAtOnceWasRefused(config: Config, run: Run, i: nat, c: CaseId)
    requires IsRun(config, run) && i < |run.worlds| && FailedAtOnce(run.worlds[i].db, c)
    ensures RefusedCall(run.worlds[i].calls, c)
    decreases i
  {
    if i > 0 {
      var w, step, w' := run.worlds[i - 1], run.steps[i - 1], run.worlds[i];
      RunStepEffects(config, run, i - 1, c);
      NewAttemptsAreFresh(config, run, i - 1, c);
      FailedByRefusal(w, step, c);
      if RefusesFor(w, step, c) {
        assert SessionOk(w.db.events, w.calls, w.sessions[step.s]);
        assert RefusedCall(w.calls, c);
      } else {
        FailedAtOnceWasRefused(config, run, i - 1, c);
      }
      RefusedCallStays(w, w', c);
    }
  }

  lemma OneCallRefused(w: World, c: CaseId)
    requires NetworkInv(w) && FailedAtOnce(w.db, c) && RefusedCall(w.calls, c)
    ensures !StoredCall(w.calls, c, -1)
  {
    var j :| 0 <= j < |w.calls| && w.calls[j].request.caseId == c && w.calls[j].phase.Refused?;
    assert |CallsOf(w.calls, c)| == 1;
    assert j in CallsOf(w.calls, c);
    forall x | 0 <= x < |w.calls| && w.calls[x].request.caseId == c ensures x == j {
      assert x in CallsOf(w.calls, c);
      if x != j {
        assert {x, j} <= CallsOf(w.calls, c);
        SubsetCard({x, j}, CallsOf(w.calls, c));
      }
    }
  }

  /** What the committed row alone tells: an attempt dispatched once and failed without the evidence of a
      lookup has been refused, and the provider holds no refund of the case. */
  lemma FailedAtOnceStoredNothing(config: Config, run: Run, i: nat, c: CaseId)
    requires IsRun(config, run) && i < |run.worlds| && FailedAtOnce(run.worlds[i].db, c)
    ensures RefundV1(c) !in run.worlds[i].refunds
  {
    RunKeepsInv(config, run, i);
    FailedAtOnceWasRefused(config, run, i, c);
    OneCallRefused(run.worlds[i], c);
    StoredWhenAnswered(run.worlds[i], c);
  }
}
