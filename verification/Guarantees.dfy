/** What every run of the protocol guarantees, whatever workers, crashes, takeovers, late replies
    and stale reads it contains (level FREE). */
module Guarantees {
  import opened Domain
  import opened Tables
  import opened History
  import opened Returns
  import opened Provider
  import opened Cells
  import opened Ledger
  import opened Settlement
  import opened Protocol
  import opened Safety

  /** Every world of a run satisfies the invariant. */
  lemma {:induction false} RunKeepsInv(config: Config, run: Run, i: nat)
    requires IsRun(config, run) && i < |run.worlds|
    ensures Inv(config.settings, run.worlds[i])
    decreases i
  {
    if i == 0 {
      InitialInv(config.settings);
    } else {
      RunKeepsInv(config, run, i - 1);
      assert Taken(config, run, i - 1);
      StepKeepsInv(config, run.worlds[i - 1], run.steps[i - 1], run.worlds[i]);
    }
  }

  /* Exactly-once effect. */

  /** The provider holds at most one refund for a case, and it is the one finance approved. */
  lemma ExactlyOnceEffect(config: Config, run: Run, i: nat, k: ProviderKey)
    requires IsRun(config, run) && i < |run.worlds| && k in run.worlds[i].refunds
    ensures var w := run.worlds[i];
            var row := w.refunds[k];
            var c := row.caseId;
            && (forall j :: j in w.refunds && w.refunds[j].caseId == c ==> j == k)
            && (forall j :: j in w.refunds && w.refunds[j].refundId == row.refundId ==> j == k)
            && c in w.db.cases && c in w.db.attempts
            && k == w.db.attempts[c].key
            && row.amount == w.db.attempts[c].amount
            && row.currency == w.db.attempts[c].currency == w.db.cases[c].currency
            && w.db.cases[c].approved == Some(row.amount)
            && 0 < row.amount <= w.db.cases[c].requested
            && PastApproval(w.db.cases[c].status)
  {
    RunKeepsInv(config, run, i);
    var w := run.worlds[i];
    assert CellOk(config.settings, k.caseId, CellOf(w.db, k.caseId));
  }

  /** The sum of `f` over a finite set of cases. */
  ghost function Sum(ids: set<CaseId>, f: CaseId -> int): int
  {
    if ids == {} then 0
    else
      var c :| c in ids;
      f(c) + Sum(ids - {c}, f)
  }

  lemma {:induction false} SumMonotone(ids: set<CaseId>, f: CaseId -> int, g: CaseId -> int)
    requires forall c :: c in ids ==> f(c) <= g(c)
    ensures Sum(ids, f) <= Sum(ids, g)
  {
    if ids != {} {
      var c :| c in ids && Sum(ids, f) == f(c) + Sum(ids - {c}, f);
      SumMonotone(ids - {c}, f, g);
      SumPick(ids, g, c);
    }
  }

  /** The sum does not depend on the order in which the cases are taken. */
  lemma {:induction false} SumPick(ids: set<CaseId>, f: CaseId -> int, c: CaseId)
    requires c in ids
    ensures Sum(ids, f) == f(c) + Sum(ids - {c}, f)
    decreases |ids|
  {
    var d :| d in ids && Sum(ids, f) == f(d) + Sum(ids - {d}, f);
    if d != c {
      SumPick(ids - {d}, f, c);
      SumPick(ids - {c}, f, d);
      assert ids - {d} - {c} == ids - {c} - {d};
    }
  }

  function RefundedAmount(w: World, c: CaseId): int {
    if RefundV1(c) in w.refunds then w.refunds[RefundV1(c)].amount else 0
  }

  function ApprovedAmount(w: World, c: CaseId): int {
    if c in w.db.cases && w.db.cases[c].approved.Some? then w.db.cases[c].approved.value else 0
  }

  function RequestedAmount(w: World, c: CaseId): int {
    if c in w.db.cases then w.db.cases[c].requested else 0
  }

  /** Over any set of cases - one customer, one organization, one currency, all of them - the money
      moved is at most the money approved, which is at most the money requested. */
  lemma MoneyNeverExceedsApproval(config: Config, run: Run, i: nat, ids: set<CaseId>)
    requires IsRun(config, run) && i < |run.worlds|
    ensures var w := run.worlds[i];
            && Sum(ids, (c: CaseId) => RefundedAmount(w, c)) <= Sum(ids, (c: CaseId) => ApprovedAmount(w, c))
            && Sum(ids, (c: CaseId) => ApprovedAmount(w, c)) <= Sum(ids, (c: CaseId) => RequestedAmount(w, c))
  {
    RunKeepsInv(config, run, i);
    var w := run.worlds[i];
    forall c | c in ids
      ensures RefundedAmount(w, c) <= ApprovedAmount(w, c) <= RequestedAmount(w, c)
    {
      AmountsOrdered(config.settings, w, c);
    }
    SumMonotone(ids, (c: CaseId) => RefundedAmount(w, c), (c: CaseId) => ApprovedAmount(w, c));
    SumMonotone(ids, (c: CaseId) => ApprovedAmount(w, c), (c: CaseId) => RequestedAmount(w, c));
  }

  /** All the money the provider has paid out. */
  ghost function PaidOut(refunds: ProviderTable): int
    decreases |refunds|
  {
    if refunds == map[] then 0
    else
      var k :| k in refunds;
      refunds[k].amount + PaidOut(refunds - {k})
  }

  function CasesPaid(refunds: ProviderTable): set<CaseId> {
    set k | k in refunds && k.RefundV1? :: k.caseId
  }

  lemma {:induction false} PaidOutIsSum(refunds: ProviderTable, f: CaseId -> int)
    requires forall k :: k in refunds ==> k.RefundV1? && f(k.caseId) == refunds[k].amount
    ensures PaidOut(refunds) == Sum(CasesPaid(refunds), f)
    decreases |refunds|
  {
    if refunds == map[] {
      assert CasesPaid(refunds) == {};
    } else {
      var k :| k in refunds && PaidOut(refunds) == refunds[k].amount + PaidOut(refunds - {k});
      PaidOutIsSum(refunds - {k}, f);
      assert CasesPaid(refunds - {k}) == CasesPaid(refunds) - {k.caseId};
      assert k.caseId in CasesPaid(refunds);
      SumPick(CasesPaid(refunds), f, k.caseId);
    }
  }

  lemma {:induction false} SumSubset(some: set<CaseId>, all: set<CaseId>, f: CaseId -> int)
    requires some <= all && forall c :: c in all ==> f(c) >= 0
    ensures Sum(some, f) <= Sum(all, f)
    decreases |all|
  {
    if all != some {
      var c :| c in all && c !in some;
      SumPick(all, f, c);
      SumSubset(some, all - {c}, f);
    }
  }

  lemma PaidCase(w: World, k: ProviderKey)
    requires ProviderOk(w.db.attempts, w.refunds) && k in w.refunds
    ensures k.RefundV1? && k.caseId in w.db.attempts && RefundedAmount(w, k.caseId) == w.refunds[k].amount
  {
  }

  lemma AmountsOrdered(settings: Settings, w: World, c: CaseId)
    requires Inv(settings, w)
    ensures 0 <= RefundedAmount(w, c) <= ApprovedAmount(w, c) <= RequestedAmount(w, c)
  {
    assert CellOk(settings, c, CellOf(w.db, c));
    if RefundV1(c) in w.refunds {
      assert RowMatches(w.refunds[RefundV1(c)], w.db.attempts[c]);
    }
  }

  /** All the provider has paid out is at most all that has been approved. */
  lemma PaidOutWithinApprovals(config: Config, run: Run, i: nat)
    requires IsRun(config, run) && i < |run.worlds|
    ensures var w := run.worlds[i];
            PaidOut(w.refunds) <= Sum(w.db.cases.Keys, (c: CaseId) => ApprovedAmount(w, c))
  {
    RunKeepsInv(config, run, i);
    var w := run.worlds[i];
    var refunded := (c: CaseId) => RefundedAmount(w, c);
    var all := w.db.cases.Keys;
    forall k | k in w.refunds ensures k.RefundV1? && refunded(k.caseId) == w.refunds[k].amount && k.caseId in all {
      PaidCase(w, k);
      assert CellOk(config.settings, k.caseId, CellOf(w.db, k.caseId));
    }
    PaidOutIsSum(w.refunds, refunded);
    forall c ensures 0 <= RefundedAmount(w, c) {
      AmountsOrdered(config.settings, w, c);
    }
    SumSubset(CasesPaid(w.refunds), all, refunded);
    MoneyNeverExceedsApproval(config, run, i, all);
  }

  /** Intent before effect: what the provider has stored for a case, together with what is still on
      its way to it, never exceeds the dispatches recorded before sending. (Recording a dispatch, from the
      query of the attempt to the commit, is one step here.) */
  lemma IntentBeforeEffect(config: Config, run: Run, i: nat, c: CaseId)
    requires IsRun(config, run) && i < |run.worlds|
    ensures var w := run.worlds[i];
            PostCount(w.refunds, c) + |InFlight(w.calls, c)|
            <= if c in w.db.attempts then w.db.attempts[c].dispatchCount else 0
  {
    RunKeepsInv(config, run, i);
    var w := run.worlds[i];
    var answered, flying, all := AnsweredOf(w.calls, c), InFlight(w.calls, c), CallsOf(w.calls, c);
    assert PostCount(w.refunds, c) == |answered|;
    SubsetCard(answered + flying, all);
    assert answered !! flying;
    if c !in w.db.attempts {
      assert all == {};
    }
  }

  lemma SubsetCard<T>(a: set<T>, b: set<T>)
    requires a <= b
    ensures |a| <= |b|
  {
    assert b == a + (b - a);
  }

  /* Nothing committed is taken back. */

  ghost predicate DbEvolves(db: Db, db': Db) {
    forall c {:trigger CellOf(db', c)} :: CellEvolvesOrDispatches(CellOf(db, c), CellOf(db', c))
  }

  /** As `CellEvolves`, but a dispatch may have been counted. */
  predicate CellEvolvesOrDispatches(before: Cell, after: Cell) {
    CellEvolves(before, after) || (before.attempt.Some? && after == DispatchedCell(before))
  }

  ghost predicate RefundsPersist(refunds: ProviderTable, refunds': ProviderTable) {
    forall k {:trigger k in refunds'} :: k in refunds ==> k in refunds' && SameRefund(refunds[k], refunds'[k])
  }

  lemma SameCellsEvolve(db: Db)
    ensures DbEvolves(db, db)
  {
  }

  lemma KeepsEvolves(settings: Settings, db: Db, db': Db, c: CaseId)
    requires Keeps(settings, db, db', c)
    ensures DbEvolves(db, db')
  {
  }

  lemma DispatchEvolves(w: World, s: nat, c: CaseId, w': World)
    requires Dispatched(w, s, c, w')
    ensures DbEvolves(w.db, w'.db)
  {
    forall d ensures CellEvolvesOrDispatches(CellOf(w.db, d), CellOf(w'.db, d)) {
      if d != c {
        assert CellOf(w'.db, d) == CellOf(w.db, d);
      }
    }
  }

  lemma BeginEvolves(settings: Settings, w: World, s: nat, w': World)
    requires DbInv(settings, w.db) && StepBegin(w, s) == Some(w')
    ensures DbEvolves(w.db, w'.db)
  {
    if |w'.calls| > |w.calls| {
      DispatchEffect(settings, w, s, w');
      DispatchEvolves(w, s, w.db.events[w.sessions[s].e].caseId, w');
    } else {
      SkipEvolves(settings, w, s, w');
    }
  }

  lemma SkipEvolves(settings: Settings, w: World, s: nat, w': World)
    requires DbInv(settings, w.db) && StepBegin(w, s) == Some(w') && |w'.calls| == |w.calls|
    ensures DbEvolves(w.db, w'.db)
  {
    var e := w.sessions[s].e;
    if w.db.events[e].status == Processing {
      SkipKeeps(settings, w.db, e, w'.db);
      KeepsEvolves(settings, w.db, w'.db, w.db.events[e].caseId);
    }
  }

  lemma StoreEvolves(settings: Settings, w: World, i: nat, freshId: string, w': World)
    requires Inv(settings, w) && StepProviderStores(w, i, freshId) == Some(w')
    ensures DbEvolves(w.db, w'.db) && RefundsPersist(w.refunds, w'.refunds)
  {
    assert CallOk(w.db.attempts, w.refunds, w.calls[i]);
    StoredTable(w, w.calls[i].request, freshId, w'.refunds);
  }

  lemma ConfirmationEvolves(config: Config, w: World, step: Step, w': World)
    requires step.LookupCommit? || step.Webhook?
    requires Inv(config.settings, w) && Next(config, w, step) == Some(w')
    ensures DbEvolves(w.db, w'.db)
  {
    if step.LookupCommit? {
      NextReconciles(config, w, step.l, w');
      LookupCommitStep(config.settings, w, step.l, w');
      KeepsEvolves(config.settings, w.db, w'.db, w.lookups[step.l].c);
    } else {
      NextDelivers(config, w, step.key, step.eventId, w');
      WebhookStep(config.settings, w, step.key, step.eventId, w');
      KeepsEvolves(config.settings, w.db, w'.db, step.key.caseId);
    }
  }

  lemma WorkerEvolves(config: Config, w: World, step: Step, w': World)
    requires step.Claim? || step.Settle? || step.Begin?
    requires Inv(config.settings, w) && Next(config, w, step) == Some(w')
    ensures DbEvolves(w.db, w'.db)
  {
    if step.Claim? {
      NextClaims(config, w, step.s, step.e, w');
      ClaimEvolves(config, w, step.s, step.e, w');
    } else if step.Settle? {
      NextSettles(config, w, step.s, step.outcome, w');
      SettleEvolves(config.settings, w, step.s, step.outcome, w');
    } else {
      NextBegins(config, w, step.s, w');
      BeginEvolves(config.settings, w, step.s, w');
    }
  }

  lemma ClaimEvolves(config: Config, w: World, s: nat, e: EventId, w': World)
    requires Inv(config.settings, w) && StepClaim(config, w, s, e) == Some(w')
    ensures DbEvolves(w.db, w'.db)
  {
    ClaimStep(config, w, s, e, w');
    KeepsEvolves(config.settings, w.db, w'.db, w.db.events[e].caseId);
  }

  lemma SettleEvolves(settings: Settings, w: World, s: nat, outcome: Outcome, w': World)
    requires Inv(settings, w) && StepSettle(settings, w, s, outcome) == Some(w')
    ensures DbEvolves(w.db, w'.db)
  {
    SettleStep(settings, w, s, outcome, w');
    KeepsEvolves(settings, w.db, w'.db, w.db.events[w.sessions[s].e].caseId);
  }

  lemma HumanEvolves(config: Config, w: World, step: Step, w': World)
    requires step.Create? || step.TxnCommit?
    requires Inv(config.settings, w) && Next(config, w, step) == Some(w')
    ensures DbEvolves(w.db, w'.db)
  {
    if step.Create? {
      NextCreates(config, w, step.context, step.c, step.requested, step.currency, w');
      CreateStep(config.settings, w, step.context, step.c, step.requested, step.currency, w');
      KeepsEvolves(config.settings, w.db, w'.db, step.c);
    } else {
      NextCommits(config, w, step.t, step.newEvent, w');
      CommandStep(config.settings, w, step.t, step.newEvent, w');
      KeepsEvolves(config.settings, w.db, w'.db, w.txns[step.t].cmd.c);
    }
  }

  predicate WritesTables(step: Step) {
    || step.Create? || step.TxnCommit? || step.LookupCommit? || step.Webhook?
    || step.Claim? || step.Settle? || step.Begin?
  }

  lemma WritingEvolves(config: Config, w: World, step: Step, w': World)
    requires WritesTables(step)
    requires Inv(config.settings, w) && Next(config, w, step) == Some(w')
    ensures DbEvolves(w.db, w'.db)
  {
    if step.Create? || step.TxnCommit? {
      HumanEvolves(config, w, step, w');
    } else if step.LookupCommit? || step.Webhook? {
      ConfirmationEvolves(config, w, step, w');
    } else {
      WorkerEvolves(config, w, step, w');
    }
  }

  lemma OtherTablesUntouched(config: Config, w: World, step: Step, w': World)
    requires Next(config, w, step) == Some(w')
    ensures !WritesTables(step) ==> w'.db == w.db
    ensures !step.ProviderStores? ==> w'.refunds == w.refunds
  {
  }

  /** No step takes back what is committed. */
  lemma StepEvolves(config: Config, w: World, step: Step, w': World)
    requires Inv(config.settings, w) && Next(config, w, step) == Some(w')
    ensures DbEvolves(w.db, w'.db) && RefundsPersist(w.refunds, w'.refunds)
  {
    OtherTablesUntouched(config, w, step, w');
    if WritesTables(step) {
      WritingEvolves(config, w, step, w');
    } else {
      SameCellsEvolve(w.db);
    }
    if step.ProviderStores? {
      StoreEvolves(config.settings, w, step.call, step.freshId, w');
    }
  }

  /** What a later world of a run still knows about a case. */
  predicate Remembers(before: Cell, after: Cell) {
    && before.log <= after.log
    && (before.row.Some? ==>
          && after.row.Some?
          && after.row.value.org == before.row.value.org
          && after.row.value.requested == before.row.value.requested
          && (Final(before.row.value.status) ==> Final(after.row.value.status)))
    && (before.attempt.Some? ==>
          && after.attempt.Some?
          && after.attempt.value.key == before.attempt.value.key
          && after.attempt.value.amount == before.attempt.value.amount
          && after.attempt.value.currency == before.attempt.value.currency
          && after.attempt.value.dispatchCount >= before.attempt.value.dispatchCount
          && (before.attempt.value.providerRef.Some? ==>
                after.attempt.value.providerRef == before.attempt.value.providerRef))
  }

  lemma RunStep(config: Config, run: Run, j: nat)
    requires IsRun(config, run) && j < |run.steps|
    ensures Inv(config.settings, run.worlds[j])
    ensures Next(config, run.worlds[j], run.steps[j]) == Some(run.worlds[j + 1])
    ensures DbEvolves(run.worlds[j].db, run.worlds[j + 1].db)
    ensures RefundsPersist(run.worlds[j].refunds, run.worlds[j + 1].refunds)
  {
    RunKeepsInv(config, run, j);
    assert Taken(config, run, j);
    StepEvolves(config, run.worlds[j], run.steps[j], run.worlds[j + 1]);
  }

  lemma RememberOneMore(a: Cell, b: Cell, c: Cell)
    requires Remembers(a, b) && CellEvolvesOrDispatches(b, c)
    ensures Remembers(a, c)
  {
  }

  lemma PersistOneMore(a: ProviderTable, b: ProviderTable, c: ProviderTable)
    requires RefundsPersist(a, b) && RefundsPersist(b, c)
    ensures RefundsPersist(a, c)
  {
    forall k | k in a ensures k in c && SameRefund(a[k], c[k]) {
      assert k in b;
    }
  }

  lemma {:induction false} RunRemembers(config: Config, run: Run, i: nat, j: nat, c: CaseId)
    requires IsRun(config, run) && i <= j < |run.worlds|
    ensures Remembers(CellOf(run.worlds[i].db, c), CellOf(run.worlds[j].db, c))
    ensures RefundsPersist(run.worlds[i].refunds, run.worlds[j].refunds)
    decreases j - i
  {
    if i < j {
      RunRemembers(config, run, i, j - 1, c);
      OneStepMore(config, run, run.worlds[i], j - 1, c);
    }
  }

  lemma OneStepMore(config: Config, run: Run, first: World, j: nat, c: CaseId)
    requires IsRun(config, run) && j < |run.steps|
    requires Remembers(CellOf(first.db, c), CellOf(run.worlds[j].db, c))
    requires RefundsPersist(first.refunds, run.worlds[j].refunds)
    ensures Remembers(CellOf(first.db, c), CellOf(run.worlds[j + 1].db, c))
    ensures RefundsPersist(first.refunds, run.worlds[j + 1].refunds)
  {
    RunEvolves(config, run, j);
    RememberOneMore(CellOf(first.db, c), CellOf(run.worlds[j].db, c), CellOf(run.worlds[j + 1].db, c));
    PersistOneMore(first.refunds, run.worlds[j].refunds, run.worlds[j + 1].refunds);
  }

  lemma RunEvolves(config: Config, run: Run, j: nat)
    requires IsRun(config, run) && j < |run.steps|
    ensures DbEvolves(run.worlds[j].db, run.worlds[j + 1].db)
    ensures RefundsPersist(run.worlds[j].refunds, run.worlds[j + 1].refunds)
  {
    RunStep(config, run, j);
  }

  /** A refund once confirmed stays confirmed: the case never leaves the final statuses, the
      provider reference never changes, and it is always that of a stored refund. */
  lemma SuccessIsNeverLost(config: Config, run: Run, i: nat, j: nat, c: CaseId)
    requires IsRun(config, run) && i <= j < |run.worlds|
    requires c in run.worlds[i].db.cases && Final(run.worlds[i].db.cases[c].status)
    ensures var w, w' := run.worlds[i], run.worlds[j];
            && c in w'.db.cases && Final(w'.db.cases[c].status)
            && c in w.db.attempts && c in w'.db.attempts
            && RefundV1(c) in w.refunds && RefundV1(c) in w'.refunds
            && w.db.attempts[c].providerRef == Some(w.refunds[RefundV1(c)].refundId)
            && w'.db.attempts[c].providerRef == w.db.attempts[c].providerRef
            && SameRefund(w.refunds[RefundV1(c)], w'.refunds[RefundV1(c)])
  {
    RunKeepsInv(config, run, i);
    RunRemembers(config, run, i, j, c);
    assert CellOk(config.settings, c, CellOf(run.worlds[i].db, c));
  }

  /* Approvals. */

  lemma {:induction false} RefundApprovalsFrom(approvals: seq<Approval>, c: CaseId, k: nat)
    requires k < |RefundApprovals(approvals, c)|
    ensures RefundApprovals(approvals, c)[k] in approvals
    ensures IsRefundApproval(RefundApprovals(approvals, c)[k], c)
  {
    var front := approvals[..|approvals| - 1];
    if k < |RefundApprovals(front, c)| {
      RefundApprovalsFrom(front, c, k);
    }
  }

  /** `a` is an approval of the refund of case `c` for exactly `amount`. */
  predicate Approves(db: Db, a: Approval, c: CaseId, amount: int) {
    a in db.approvals && IsRefundApproval(a, c) && a.amount == Some(amount)
  }

  /** Four eyes under stale reads: however the reads and the guarded writes of the approvers
      interleave, an attempt exists only for an amount in range that has been approved as such, and
      by two users when it is high. */
  lemma FourEyesHold(config: Config, run: Run, i: nat, c: CaseId)
    requires IsRun(config, run) && i < |run.worlds| && c in run.worlds[i].db.attempts
    ensures var db := run.worlds[i].db;
            var amount := db.attempts[c].amount;
            && c in db.cases && 0 < amount <= db.cases[c].requested
            && (exists a :: Approves(db, a, c, amount))
            && (amount >= config.settings.highValueThreshold ==>
                  exists a, b :: Approves(db, a, c, amount) && Approves(db, b, c, amount) && a.user != b.user)
  {
    RunKeepsInv(config, run, i);
    var db := run.worlds[i].db;
    var cell, amount := CellOf(db, c), db.attempts[c].amount;
    assert CellOk(config.settings, c, cell);
    RefundApprovalsFrom(db.approvals, c, 0);
    assert Approves(db, cell.approvals[0], c, amount);
    if amount >= config.settings.highValueThreshold {
      RefundApprovalsFrom(db.approvals, c, 1);
      assert Approves(db, cell.approvals[1], c, amount);
    }
  }

  /** What a command has read of the attempt matters to a retry only. */
  lemma OthersReadNoAttempt(settings: Settings, db: Db, context: Context, cmd: Command, seen: Option<Attempt>,
                            now: Time, e: EventId)
    requires !cmd.op.RetryFailed?
    ensures ExecOn(settings, db, context, cmd, seen, now, e) == Exec(settings, db, context, cmd, now, e)
  {
  }

  /** A retry on an attempt read earlier writes what it would write now, if it would be accepted now. */
  lemma RetryOnStaleAttempt(settings: Settings, db: Db, context: Context, cmd: Command, seen: Option<Attempt>,
                            now: Time, e: EventId)
    requires cmd.op.RetryFailed? && CellOk(settings, cmd.c, CellOf(db, cmd.c))
    requires ExecOn(settings, db, context, cmd, seen, now, e).Ok?
    ensures cmd.c in db.attempts
    ensures var alone := Exec(settings, db, context, cmd, now, e);
            if db.attempts[cmd.c].status == Failed
            then alone == ExecOn(settings, db, context, cmd, seen, now, e)
            else alone == Err(Conflict)
  {
  }

  /** The reads of transaction `txn` are those of the tables it commits to, and it does what its command
      does; run alone, that command would be refused only if it is a retry whose attempt has moved on. */
  ghost predicate ActsAlone(settings: Settings, w: World, txn: Txn, newEvent: EventId, w': World) {
    var alone := Exec(settings, w.db, txn.context, txn.cmd, w.now, newEvent);
    && txn.cmd.c in w.db.cases && txn.snap == w.db.cases[txn.cmd.c]
    && (txn.cmd.op.ApproveRefundOf? ==> txn.approvals == Some(RefundApprovals(w.db.approvals, txn.cmd.c)))
    && (if txn.cmd.op.RetryFailed? && !(txn.cmd.c in w.db.attempts && w.db.attempts[txn.cmd.c].status == Failed)
        then alone == Err(Conflict)
        else alone.Ok? && alone.value.0 == w'.db)
  }

  lemma CommitStepIsAtomic(settings: Settings, w: World, t: nat, newEvent: EventId, w': World)
    requires Inv(settings, w) && StepTxnCommit(settings, w, t, newEvent) == Some(w')
    ensures t in w.txns && ActsAlone(settings, w, w.txns[t], newEvent, w')
  {
    var txn := w.txns[t];
    assert CellOk(settings, txn.cmd.c, CellOf(w.db, txn.cmd.c));
    CommitIsAtomic(settings, w.db, txn, w.now, newEvent);
    CommandStep(settings, w, t, newEvent, w');
    if txn.cmd.op.RetryFailed? {
      RetryOnStaleAttempt(settings, w.db, txn.context, txn.cmd, txn.seen, w.now, newEvent);
    } else {
      OthersReadNoAttempt(settings, w.db, txn.context, txn.cmd, txn.seen, w.now, newEvent);
    }
  }

  /** A commit that succeeds while others commit is the command run alone at that moment: the case
      and the approvals it read before are still the committed ones. The one read that no guard covers
      is that of the attempt by a retry. */
  lemma CommitsAreAtomic(config: Config, run: Run, i: nat)
    requires IsRun(config, run) && i < |run.steps| && run.steps[i].TxnCommit?
    ensures run.steps[i].t in run.worlds[i].txns
    ensures ActsAlone(config.settings, run.worlds[i], run.worlds[i].txns[run.steps[i].t], run.steps[i].newEvent,
                      run.worlds[i + 1])
  {
    RunKeepsInv(config, run, i);
    assert Taken(config, run, i);
    CommitStepIsAtomic(config.settings, run.worlds[i], run.steps[i].t, run.steps[i].newEvent, run.worlds[i + 1]);
  }

  /* The history of a case. */

  /** The audit log is the full history: replaying it gives the committed row, the version counts
      its entries, and the log of an earlier world is a prefix of it. */
  lemma AuditLogIsHistory(config: Config, run: Run, i: nat, j: nat, c: CaseId)
    requires IsRun(config, run) && i <= j < |run.worlds| && c in run.worlds[i].db.cases
    ensures var before, log := CaseAudit(run.worlds[i].db.audit, c), CaseAudit(run.worlds[j].db.audit, c);
            && before <= log
            && c in run.worlds[j].db.cases
            && Replay(log).Some? && Replay(log).value.row == run.worlds[j].db.cases[c]
            && run.worlds[j].db.cases[c].version == |log|
  {
    RunKeepsInv(config, run, j);
    RunRemembers(config, run, i, j, c);
    assert CellOk(config.settings, c, CellOf(run.worlds[j].db, c));
    VersionCountsLog(CaseAudit(run.worlds[j].db.audit, c));
  }

  /** Writes of a case are linear: entry k of its log carries it from version k to version k + 1,
      along an edge of the transition table or, once, by recording a first approval. */
  lemma CaseWritesAreLinear(config: Config, run: Run, i: nat, c: CaseId, k: nat)
    requires IsRun(config, run) && i < |run.worlds| && c in run.worlds[i].db.cases
    requires 0 < k < |CaseAudit(run.worlds[i].db.audit, c)|
    ensures var log := CaseAudit(run.worlds[i].db.audit, c);
            && Replay(log[..k]).Some? && Replay(log[..k + 1]).Some?
            && var before, after := Replay(log[..k]).value, Replay(log[..k + 1]).value;
               && before.row.version == k && after.row.version == k + 1
               && (if log[k].action == FirstApprovalRecorded
                   then !before.firstApproved && after.firstApproved
                        && before.row.status == Inspected && after.row == before.row.(version := k + 1)
                   else after.row.status in Transitions(before.row.status)
                        && log[k].before == Some(before.row) && log[k].after == Some(after.row))
  {
    RunKeepsInv(config, run, i);
    assert CellOk(config.settings, c, CellOf(run.worlds[i].db, c));
    var log := CaseAudit(run.worlds[i].db.audit, c);
    EveryEntryContinues(log, k);
    VersionCountsLog(log[..k]);
    VersionCountsLog(log[..k + 1]);
  }

  /** The lifecycle terminates: r authorised retries allow at most 12 + 3r versions. */
  lemma LifecycleIsBounded(config: Config, run: Run, i: nat, c: CaseId)
    requires IsRun(config, run) && i < |run.worlds| && c in run.worlds[i].db.cases
    ensures run.worlds[i].db.cases[c].version <= 12 + 3 * Retries(CaseAudit(run.worlds[i].db.audit, c))
  {
    AuditLogIsHistory(config, run, i, i, c);
    LogIsBounded(CaseAudit(run.worlds[i].db.audit, c));
  }

  /** A closed or rejected case is never written again. */
  lemma TerminalCasesStay(config: Config, run: Run, i: nat, j: nat, c: CaseId)
    requires IsRun(config, run) && i <= j < |run.worlds|
    requires c in run.worlds[i].db.cases && Terminal(run.worlds[i].db.cases[c].status)
    ensures c in run.worlds[j].db.cases && run.worlds[j].db.cases[c] == run.worlds[i].db.cases[c]
    ensures CaseAudit(run.worlds[j].db.audit, c) == CaseAudit(run.worlds[i].db.audit, c)
  {
    AuditLogIsHistory(config, run, i, i, c);
    AuditLogIsHistory(config, run, i, j, c);
    var before, log := CaseAudit(run.worlds[i].db.audit, c), CaseAudit(run.worlds[j].db.audit, c);
    assert log[..|before|] == before;
    if |before| < |log| {
      OnlyOpenCasesContinue(log, |before|);
    }
  }

  /* Case, attempt and outbox. */

  /** What a reader of the committed tables can rely on at level FREE. */
  lemma TablesStayCoupled(config: Config, run: Run, i: nat, c: CaseId)
    requires IsRun(config, run) && i < |run.worlds| && c in run.worlds[i].db.cases
    ensures var db := run.worlds[i].db;
            && db.cases[c].status != RefundApproved
            && (c in db.attempts <==> PastApproval(db.cases[c].status))
            && (db.cases[c].status == RefundPending ==>
                  && db.attempts[c].status in {Planned, Dispatching, Failed}
                  && HasLiveEvent(db.events, c))
            && (c in db.attempts && db.attempts[c].status == Succeeded ==> Final(db.cases[c].status))
  {
    RunKeepsInv(config, run, i);
    assert CellOk(config.settings, c, CellOf(run.worlds[i].db, c));
  }
}
