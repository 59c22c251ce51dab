/** Where the rows come from: every case has been opened by an entitled user, and every audit row was written by
    a step that it names its author from (level FREE). */
module Origins {
  import opened Domain
  import opened Tables
  import opened Confirmation
  import opened Returns
  import opened Protocol
  import opened Safety
  import opened Guarantees
  import opened Tabulated
  import opened AuditTrail
  import R = Reference

  /* Cases. */

  /** What stays of a case for ever. */
  predicate SameCase(before: CaseRow, after: CaseRow) {
    after.org == before.org && after.requested == before.requested && after.currency == before.currency
  }

  predicate CasesKept(before: Db, after: Db, c: CaseId) {
    && (c in before.cases ==> c in after.cases && SameCase(before.cases[c], after.cases[c]))
    && (c !in before.cases ==> c !in after.cases)
  }

  lemma ApprovalKeepsCases(settings: Settings, db: Db, context: Context, d: CaseId, amount: int, now: Time, e: EventId,
                           c: CaseId)
    requires d in db.cases
    ensures var r := R.ApproveAnswer(settings, db, context, d, amount, now, e);
            r.Ok? ==> CasesKept(db, r.value.0, c)
  {
  }

  lemma CommandKeepsCases(settings: Settings, db: Db, context: Context, cmd: Command, seen: Option<Attempt>, now: Time,
                          e: EventId, c: CaseId)
    ensures var r := R.CommandAnswer(settings, db, context, cmd, seen, now, e);
            r.Ok? ==> CasesKept(db, r.value.0, c)
  {
    if cmd.op.ApproveRefundOf? && cmd.c in db.cases {
      ApprovalKeepsCases(settings, db, context, cmd.c, cmd.op.amount, now, e, c);
    }
  }

  lemma LookupKeepsCases(w: World, l: nat, c: CaseId)
    ensures CasesKept(w.db, R.LookupTables(w, l), c)
  {
  }

  lemma DeliveryKeepsCases(w: World, key: ProviderKey, eventId: string, c: CaseId)
    ensures CasesKept(w.db, R.WebhookTables(w, key, eventId), c)
  {
  }

  lemma SettlementKeepsCases(settings: Settings, w: World, s: nat, outcome: Outcome, c: CaseId)
    ensures CasesKept(w.db, R.SettledTables(settings, w, s, outcome), c)
  {
  }

  lemma TablesKeepCases(settings: Settings, w: World, step: Step, c: CaseId)
    requires !step.Create?
    ensures CasesKept(w.db, R.TablesAfter(settings, w, step), c)
  {
    match step
    case TxnCommit(t, e) =>
      if t in w.txns {
        CommandKeepsCases(settings, w.db, w.txns[t].context, w.txns[t].cmd, w.txns[t].seen, w.now, e, c);
      }
    case LookupCommit(l) => LookupKeepsCases(w, l, c);
    case Webhook(key, eventId) => DeliveryKeepsCases(w, key, eventId, c);
    case Settle(s, outcome) => SettlementKeepsCases(settings, w, s, outcome, c);
    case _ =>
  }

  /** The step opens case `c`, by a user who may, for an amount above zero. */
  predicate Opens(step: Step, c: CaseId) {
    && step.Create? && step.c == c
    && step.context.role in {CustomerService, Automation, Admin}
    && step.requested > 0
  }

  lemma OpeningsKeepCases(db: Db, context: Context, d: CaseId, requested: int, currency: string, c: CaseId)
    ensures var db' := R.OpenedTables(db, context, d, requested, currency);
            CasesKept(db, db', c)
            || (&& c !in db.cases && c in db'.cases && Opens(Create(context, d, requested, currency), c)
                && db'.cases[c] == CaseRow(context.org, requested, None, Upper(currency), Requested, 1))
  {
  }

  /** A step keeps the cases that are there; the one that brings a case opens it. */
  lemma StepOpens(config: Config, w: World, step: Step, w': World, c: CaseId)
    requires Inv(config.settings, w) && Next(config, w, step) == Some(w')
    ensures CasesKept(w.db, w'.db, c)
            || (&& c !in w.db.cases && c in w'.db.cases && Opens(step, c)
                && w'.db.cases[c]
                   == CaseRow(step.context.org, step.requested, None, Upper(step.currency), Requested, 1))
  {
    StepsAsTabulated(config, w, step, w');
    if step.Create? {
      OpeningsKeepCases(w.db, step.context, step.c, step.requested, step.currency, c);
    } else {
      TablesKeepCases(config.settings, w, step, c);
    }
  }

  /** In every run each case was opened by a step of customer service, automation or an administrator of its own
      organization, for exactly the amount and currency that are on it still; it started out requested, with
      nothing approved, at version 1. */
  lemma {:induction false} EveryCaseWasOpened(config: Config, run: Run, n: nat, c: CaseId) returns (i: nat)
    requires IsRun(config, run) && n < |run.worlds| && c in run.worlds[n].db.cases
    ensures i < n && Opens(run.steps[i], c)
    ensures var row := run.worlds[n].db.cases[c];
            && run.steps[i].context.org == row.org && run.steps[i].requested == row.requested
            && Upper(run.steps[i].currency) == row.currency
    ensures c !in run.worlds[i].db.cases && c in run.worlds[i + 1].db.cases
    ensures var row := run.worlds[i + 1].db.cases[c];
            row.approved.None? && row.status == Requested && row.version == 1
  {
    RunOpens(config, run, n - 1, c);
    if c in run.worlds[n - 1].db.cases {
      i := EveryCaseWasOpened(config, run, n - 1, c);
    } else {
      i := n - 1;
    }
  }

  lemma RunOpens(config: Config, run: Run, k: nat, c: CaseId)
    requires IsRun(config, run) && k < |run.steps|
    ensures CasesKept(run.worlds[k].db, run.worlds[k + 1].db, c)
            || (&& c !in run.worlds[k].db.cases && c in run.worlds[k + 1].db.cases && Opens(run.steps[k], c)
                && run.worlds[k + 1].db.cases[c]
                   == CaseRow(run.steps[k].context.org, run.steps[k].requested, None, Upper(run.steps[k].currency),
                              Requested, 1))
  {
    RunStep(config, run, k);
    StepOpens(config, run.worlds[k], run.steps[k], run.worlds[k + 1], c);
  }

  /* Audit rows. */

  /** The row is one that the step writes: a command's rows name the user who has issued it, and what no user
      has asked for names none. */
  predicate WrittenBy(w: World, step: Step, row: AuditRow) {
    match step
    case Create(context, c, _, _) =>
      && row.org == context.org && row.actor == Some(context.user)
      && row.action == ReturnCreated && row.resource == CaseResource(c) && row.before.None?
    case TxnCommit(t, _) => t in w.txns && CaseRowOf(row, w.txns[t].context, w.txns[t].cmd)
    case _ => row.actor == None && OfSystem(row.action)
  }

  /** Actions that evidence brings about, without a user. */
  predicate OfSystem(action: Action) {
    || action in {SystemReturn(RefundUnknown), SystemReturn(NeedsReconciliation), SystemReturn(Refunded)}
    || action in {DispatchRecovered, DispatchKnownFailure, OutcomeUnknown, ProviderConfirmed,
                  ManualReconciliationRequired}
  }

  ghost predicate RowsWrittenBy(w: World, step: Step, after: seq<AuditRow>) {
    && w.db.audit <= after
    && forall k {:trigger after[k]} :: |w.db.audit| <= k < |after| ==> WrittenBy(w, step, after[k])
  }

  lemma CommandWrites(settings: Settings, w: World, t: nat, e: EventId)
    ensures RowsWrittenBy(w, TxnCommit(t, e), R.CommandTables(settings, w, t, e).audit)
  {
    if t in w.txns {
      var txn := w.txns[t];
      CommandRows(settings, w.db, txn.context, txn.cmd, txn.seen, w.now, e);
    }
  }

  lemma LookupWrites(w: World, l: nat)
    ensures RowsWrittenBy(w, LookupCommit(l), R.LookupTables(w, l).audit)
  {
    if l in w.lookups && w.lookups[l].seen.Some? && !w.lookups[l].observed.NotAsked?
       && w.lookups[l].c in w.db.attempts && w.lookups[l].c in w.db.cases
    {
      AnswerWrites(w, l, w.lookups[l].c, w.lookups[l].snap, w.lookups[l].seen.value, w.lookups[l].observed);
    }
  }

  lemma AnswerWrites(w: World, l: nat, c: CaseId, snap: CaseRow, seen: Attempt, observed: Observation)
    requires c in w.db.attempts && c in w.db.cases && !observed.NotAsked?
    ensures var r := R.LookupAnswer(w.db, c, snap, seen, observed);
            r.Ok? ==> RowsWrittenBy(w, LookupCommit(l), r.value.0.audit)
  {
  }

  lemma DeliveryWrites(w: World, key: ProviderKey, eventId: string)
    ensures RowsWrittenBy(w, Webhook(key, eventId), R.WebhookTables(w, key, eventId).audit)
  {
  }

  lemma SettlementWrites(settings: Settings, w: World, s: nat, outcome: Outcome)
    ensures RowsWrittenBy(w, Settle(s, outcome), R.SettledTables(settings, w, s, outcome).audit)
  {
  }

  lemma TablesWrite(settings: Settings, w: World, step: Step)
    ensures RowsWrittenBy(w, step, R.TablesAfter(settings, w, step).audit)
  {
    match step
    case TxnCommit(t, e) => CommandWrites(settings, w, t, e);
    case LookupCommit(l) => LookupWrites(w, l);
    case Webhook(key, eventId) => DeliveryWrites(w, key, eventId);
    case Settle(s, outcome) => SettlementWrites(settings, w, s, outcome);
    case _ =>
  }

  /** Every step leaves the rows on record in their places and appends its own. */
  lemma StepWrites(config: Config, w: World, step: Step, w': World)
    requires Inv(config.settings, w) && Next(config, w, step) == Some(w')
    ensures RowsWrittenBy(w, step, w'.db.audit)
  {
    StepsAsTabulated(config, w, step, w');
    TablesWrite(config.settings, w, step);
  }

  lemma RunWrites(config: Config, run: Run, k: nat)
    requires IsRun(config, run) && k < |run.steps|
    ensures RowsWrittenBy(run.worlds[k], run.steps[k], run.worlds[k + 1].db.audit)
  {
    RunStep(config, run, k);
    StepWrites(config, run.worlds[k], run.steps[k], run.worlds[k + 1]);
  }

  /** In every run each audit row was written by one step, which it has been in its place since: if it names a
      user, the row is of a case that this user has opened or of a command this user has issued, in the
      organization that the row carries. */
  lemma {:induction false} EveryRowHasItsStep(config: Config, run: Run, n: nat, k: nat) returns (i: nat)
    requires IsRun(config, run) && n < |run.worlds| && k < |run.worlds[n].db.audit|
    ensures i < n && |run.worlds[i].db.audit| <= k < |run.worlds[i + 1].db.audit|
    ensures run.worlds[i + 1].db.audit[k] == run.worlds[n].db.audit[k]
    ensures WrittenBy(run.worlds[i], run.steps[i], run.worlds[n].db.audit[k])
  {
    RunWrites(config, run, n - 1);
    if k < |run.worlds[n - 1].db.audit| {
      i := EveryRowHasItsStep(config, run, n - 1, k);
    } else {
      i := n - 1;
    }
  }
}
