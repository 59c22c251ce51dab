/** The audit log: which rows each step appends, on whose behalf, and what the rows about an attempt tell of
    its past (level FREE). */
module AuditTrail {
  import opened Domain
  import opened Tables
  import opened Returns
  import opened Provider
  import opened Protocol
  import opened Safety
  import opened Guarantees
  import opened Leases
  import opened Attempts
  import opened Tabulated
  import R = Reference

  /** The audit rows of the attempt of case `c`, oldest first. */
  function AttemptTrail(audit: seq<AuditRow>, c: CaseId): seq<AuditRow> {
    if audit == [] then []
    else
      var earlier, last := AttemptTrail(audit[..|audit| - 1], c), audit[|audit| - 1];
      if last.resource == AttemptResource(c) then earlier + [last] else earlier
  }

  lemma TrailAppend(audit: seq<AuditRow>, row: AuditRow, c: CaseId)
    ensures AttemptTrail(audit + [row], c)
         == AttemptTrail(audit, c) + if row.resource == AttemptResource(c) then [row] else []
  {
    assert (audit + [row])[..|audit|] == audit;
  }

  /** `more` are the actions recorded since: each row is of the organization, and no user is behind it. */
  predicate TrailGrows(before: seq<AuditRow>, after: seq<AuditRow>, c: CaseId, org: Uuid, more: seq<Action>) {
    AttemptTrail(after, c)
    == AttemptTrail(before, c)
       + seq(|more|, i requires 0 <= i < |more| => AuditRow(org, None, more[i], AttemptResource(c), None, None))
  }

  /** What a step that is taken records about the attempt of case `c`. */
  function Recorded(settings: Settings, w: World, step: Step, c: CaseId): seq<Action> {
    if c !in w.db.attempts then []
    else
      match step
      case Begin(s) =>
        if WorksOn(w, s, c) && w.db.events[w.sessions[s].e].status == Processing
           && w.db.attempts[c].status == Dispatching
        then [DispatchRecovered] else []
      case Settle(s, outcome) =>
        if !WorksOn(w, s, c) then []
        else
          (match outcome
           case TimedOut => if w.db.attempts[c].status == Succeeded then [] else [OutcomeUnknown]
           case RepliedRefused =>
             if w.db.events[w.sessions[s].e].attempts >= settings.maxDispatchAttempts
             then [DispatchKnownFailure, ManualReconciliationRequired] else [DispatchKnownFailure]
           case Replied => [ProviderConfirmed])
      case Webhook(key, eventId) => if key == RefundV1(c) && eventId !in w.db.receipts then [ProviderConfirmed] else []
      case LookupCommit(l) =>
        if l !in w.lookups || w.lookups[l].c != c then []
        else if w.lookups[l].observed.Found? then [ProviderConfirmed] else [ManualReconciliationRequired]
      case _ => []
  }

  /** The organization of the attempt of case `c`, if there is one. */
  function OrgOf(db: Db, c: CaseId): Uuid {
    if c in db.attempts then db.attempts[c].org else 0
  }

  predicate Records(settings: Settings, w: World, step: Step, w': World, c: CaseId) {
    TrailGrows(w.db.audit, w'.db.audit, c, OrgOf(w.db, c), Recorded(settings, w, step, c))
  }

  /* The tables. */

  lemma NoRow(before: seq<AuditRow>, c: CaseId, org: Uuid)
    ensures TrailGrows(before, before, c, org, [])
  {
  }

  /** At most one row of the case, then one of the attempt. */
  lemma OneRow(before: seq<AuditRow>, passages: seq<AuditRow>, row: AuditRow, d: CaseId, c: CaseId, org: Uuid)
    requires |passages| <= 1 && (|passages| == 1 ==> passages[0].resource.CaseResource?)
    requires row.actor == None && row.resource == AttemptResource(d) && row.before.None? && row.after.None?
    requires c == d ==> row.org == org
    ensures TrailGrows(before, before + passages + [row], c, org, if c == d then [row.action] else [])
  {
    if |passages| == 1 {
      assert passages == [passages[0]];
      TrailAppend(before, passages[0], c);
    } else {
      assert before + passages == before;
    }
    TrailAppend(before + passages, row, c);
  }

  lemma ConfirmedTrail(db: Db, d: CaseId, snap: CaseRow, providerRef: string, evidence: Evidence, c: CaseId)
    requires d in db.attempts
    ensures TrailGrows(db.audit, R.Confirmed(db, d, snap, providerRef, evidence).audit, c, OrgOf(db, c),
                       if c == d then [ProviderConfirmed] else [])
  {
    var waits := snap.status in {RefundPending, RefundUnknown, NeedsReconciliation};
    OneRow(db.audit,
           if waits then [R.Passage(d, snap, R.Onward(snap, Refunded), None, SystemReturn(Refunded))] else [],
           R.Entry(d, db.attempts[d], ProviderConfirmed), d, c, OrgOf(db, c));
  }

  lemma HandedOverTrail(db: Db, d: CaseId, snap: CaseRow, c: CaseId)
    requires d in db.attempts
    ensures TrailGrows(db.audit, R.HandedOver(db, d, snap).audit, c, OrgOf(db, c),
                       if c == d then [ManualReconciliationRequired] else [])
  {
    var moves, to := snap.status in {RefundPending, RefundUnknown}, R.Onward(snap, NeedsReconciliation);
    OneRow(db.audit, if moves then [R.Passage(d, snap, to, None, SystemReturn(NeedsReconciliation))] else [],
           R.Entry(d, db.attempts[d], ManualReconciliationRequired), d, c, OrgOf(db, c));
  }

  lemma MadeUnknownTrail(db: Db, d: CaseId, c: CaseId)
    requires d in db.attempts && d in db.cases
    ensures TrailGrows(db.audit, R.MadeUnknown(db, d).audit, c, OrgOf(db, c),
                       if c == d then [OutcomeUnknown] else [])
  {
    var row, to := db.cases[d], R.Onward(db.cases[d], RefundUnknown);
    OneRow(db.audit,
           if row.status == RefundPending then [R.Passage(d, row, to, None, SystemReturn(RefundUnknown))] else [],
           R.Entry(d, db.attempts[d], OutcomeUnknown), d, c, OrgOf(db, c));
  }

  lemma TwoRows(a: seq<AuditRow>, b: seq<AuditRow>, d: seq<AuditRow>, c: CaseId, org: Uuid, first: seq<Action>,
                second: seq<Action>)
    requires TrailGrows(a, b, c, org, first) && TrailGrows(b, d, c, org, second)
    ensures TrailGrows(a, d, c, org, first + second)
  {
  }

  lemma RefusedTrail(settings: Settings, db: Db, e: EventId, now: Time, c: CaseId)
    requires e in db.events && db.events[e].caseId in db.attempts && db.events[e].caseId in db.cases
    ensures TrailGrows(db.audit, R.RefusedTables(settings, db, e, now).audit, c, OrgOf(db, c),
                       if c != db.events[e].caseId then []
                       else if db.events[e].attempts >= settings.maxDispatchAttempts
                       then [DispatchKnownFailure, ManualReconciliationRequired] else [DispatchKnownFailure])
  {
    var d := db.events[e].caseId;
    var failed := db.(attempts := db.attempts[d := db.attempts[d].(status := AttemptStatus.Failed)],
                      audit := db.audit + [R.Entry(d, db.attempts[d], DispatchKnownFailure)]);
    assert db.audit + [] + [R.Entry(d, db.attempts[d], DispatchKnownFailure)] == failed.audit;
    OneRow(db.audit, [], R.Entry(d, db.attempts[d], DispatchKnownFailure), d, c, OrgOf(db, c));
    HandedOverTrail(failed, d, db.cases[d], c);
    if db.events[e].attempts >= settings.maxDispatchAttempts {
      TwoRows(db.audit, failed.audit, R.HandedOver(failed, d, db.cases[d]).audit, c, OrgOf(db, c),
              if c == d then [DispatchKnownFailure] else [], if c == d then [ManualReconciliationRequired] else []);
      assert [DispatchKnownFailure] + [ManualReconciliationRequired]
          == [DispatchKnownFailure, ManualReconciliationRequired];
      var none: seq<Action> := [];
      assert none + none == none;
    }
  }

  lemma BegunTrail(db: Db, e: EventId, c: CaseId)
    requires e in db.events && db.events[e].caseId in db.attempts
    ensures TrailGrows(db.audit, R.Begun(db, e).audit, c, OrgOf(db, c),
                       if c == db.events[e].caseId && db.attempts[db.events[e].caseId].status == Dispatching
                       then [DispatchRecovered]
                       else [])
  {
    var d := db.events[e].caseId;
    NoRow(db.audit, c, OrgOf(db, c));
    assert db.audit + [] == db.audit;
    OneRow(db.audit, [], R.Entry(d, db.attempts[d], DispatchRecovered), d, c, OrgOf(db, c));
  }

  /* Commands. */

  /** A command appends rows about its case only: the user is named, except where the system acts on. */
  predicate CaseRowsOf(before: seq<AuditRow>, after: seq<AuditRow>, context: Context, cmd: Command) {
    && before <= after
    && |before| < |after| <= |before| + 2
    && (forall k :: |before| <= k < |after| ==> CaseRowOf(after[k], context, cmd))
  }

  predicate CaseRowOf(row: AuditRow, context: Context, cmd: Command) {
    && row.org == context.org && row.resource == CaseResource(cmd.c) && row.action in ActionsOf(cmd.op)
    && row.actor == if row.action in {RefundPlanned, RetryAuthorized} then None else Some(context.user)
  }

  function ActionsOf(op: Operation): set<Action> {
    match op
    case Authorize => {ReturnAuthorized}
    case Receive => {ReturnReceived}
    case Inspect => {ReturnInspected}
    case Reject => {ReturnRejected}
    case ApproveRefundOf(_) => {FirstApprovalRecorded, RefundApprovedByFinance, RefundPlanned}
    case RetryFailed => {RetryAuthorized}
    case MarkReconciled => {ReturnReconciled}
    case Close => {ReturnClosed}
  }

  lemma CommandRows(settings: Settings, db: Db, context: Context, cmd: Command, seen: Option<Attempt>, now: Time,
                    e: EventId)
    ensures var r := R.CommandAnswer(settings, db, context, cmd, seen, now, e);
            r.Ok? ==> CaseRowsOf(db.audit, r.value.0.audit, context, cmd)
  {
    if cmd.c in db.cases && db.cases[cmd.c].org == context.org {
      MovedRows(db, context, cmd);
      RetriedRows(db, context, cmd, seen, now, e);
      if cmd.op.ApproveRefundOf? {
        ApprovedRows(settings, db, context, cmd, cmd.op.amount, now, e);
      }
    }
  }

  lemma MovedRows(db: Db, context: Context, cmd: Command)
    requires cmd.c in db.cases && db.cases[cmd.c].org == context.org
    ensures !cmd.op.ApproveRefundOf? && !cmd.op.RetryFailed? ==>
              CaseRowsOf(db.audit, R.Moved(db, context, cmd).audit, context, cmd)
  {
  }

  lemma RetriedRows(db: Db, context: Context, cmd: Command, seen: Option<Attempt>, now: Time, e: EventId)
    requires cmd.c in db.cases && db.cases[cmd.c].org == context.org
    ensures var r := R.RetryAnswer(db, context, cmd, seen, now, e);
            cmd.op.RetryFailed? && r.Ok? ==> CaseRowsOf(db.audit, r.value.0.audit, context, cmd)
  {
  }

  lemma ApprovedRows(settings: Settings, db: Db, context: Context, cmd: Command, amount: int, now: Time, e: EventId)
    requires cmd.c in db.cases && db.cases[cmd.c].org == context.org && cmd.op == ApproveRefundOf(amount)
    ensures var r := R.ApproveAnswer(settings, db, context, cmd.c, amount, now, e);
            r.Ok? ==> CaseRowsOf(db.audit, r.value.0.audit, context, cmd)
  {
  }

  lemma {:induction false} NoAttemptRows(before: seq<AuditRow>, after: seq<AuditRow>, c: CaseId)
    requires before <= after && forall k :: |before| <= k < |after| ==> after[k].resource.CaseResource?
    ensures AttemptTrail(after, c) == AttemptTrail(before, c)
    decreases |after|
  {
    if |after| > |before| {
      NoAttemptRows(before, after[..|after| - 1], c);
    } else {
      assert after == before;
    }
  }

  /* Steps. */

  lemma CommitRecords(settings: Settings, w: World, t: nat, newEvent: EventId, w': World, c: CaseId)
    requires Inv(settings, w) && StepTxnCommit(settings, w, t, newEvent) == Some(w')
    ensures Records(settings, w, TxnCommit(t, newEvent), w', c)
    ensures t in w.txns && CaseRowsOf(w.db.audit, w'.db.audit, w.txns[t].context, w.txns[t].cmd)
  {
    CommittedAs(settings, w, t, newEvent, w');
    CommandsAsTabulated(settings, w.db, w.txns[t].context, w.txns[t].cmd, w.txns[t].seen, w.now, newEvent);
    CommandRows(settings, w.db, w.txns[t].context, w.txns[t].cmd, w.txns[t].seen, w.now, newEvent);
    NoAttemptRows(w.db.audit, w'.db.audit, c);
  }

  lemma BeginRecords(settings: Settings, w: World, s: nat, w': World, c: CaseId)
    requires Inv(settings, w) && StepBegin(w, s) == Some(w')
    ensures Records(settings, w, Begin(s), w', c)
  {
    BegunAsTabulated(settings, w, s, w');
    BegunAs(w, s, w');
    BegunRecords(settings, w, s, w', c);
  }

  lemma BegunRecords(settings: Settings, w: World, s: nat, w': World, c: CaseId)
    requires s in w.sessions && w.sessions[s].e in w.db.events && w'.db == R.BegunTables(w, s)
    ensures Records(settings, w, Begin(s), w', c)
  {
    var e := w.sessions[s].e;
    if w.db.events[e].caseId in w.db.attempts {
      BegunTrail(w.db, e, c);
    }
  }

  lemma SettleRecords(settings: Settings, w: World, s: nat, outcome: Outcome, w': World, c: CaseId)
    requires Inv(settings, w) && StepSettle(settings, w, s, outcome) == Some(w')
    ensures Records(settings, w, Settle(s, outcome), w', c)
  {
    SettleAsTabulated(settings, w, s, outcome, w');
    SettledAs(settings, w, s, outcome, w');
    SettlersCan(settings, w, s);
    SettledRecords(settings, w, s, outcome, w', c);
  }

  lemma SettledRecords(settings: Settings, w: World, s: nat, outcome: Outcome, w': World, c: CaseId)
    requires CanSettle(settings, w, s) && w'.db == R.SettledTables(settings, w, s, outcome)
    requires outcome == Replied ==> w.calls[w.sessions[s].stage.call].phase.Answered?
    ensures Records(settings, w, Settle(s, outcome), w', c)
  {
    match outcome
    case TimedOut => TimedOutRecords(settings, w, s, w', c);
    case RepliedRefused => RefusedRecords(settings, w, s, w', c);
    case Replied => RepliedRecords(settings, w, s, w', c);
  }

  lemma TimedOutRecords(settings: Settings, w: World, s: nat, w': World, c: CaseId)
    requires CanSettle(settings, w, s) && w'.db == R.TimedOutTables(w.db, w.sessions[s].e)
    ensures Records(settings, w, Settle(s, TimedOut), w', c)
  {
    MadeUnknownTrail(w.db, w.db.events[w.sessions[s].e].caseId, c);
  }

  lemma RefusedRecords(settings: Settings, w: World, s: nat, w': World, c: CaseId)
    requires CanSettle(settings, w, s) && w'.db == R.RefusedTables(settings, w.db, w.sessions[s].e, w.now)
    ensures Records(settings, w, Settle(s, RepliedRefused), w', c)
  {
    RefusedTrail(settings, w.db, w.sessions[s].e, w.now, c);
  }

  lemma RepliedRecords(settings: Settings, w: World, s: nat, w': World, c: CaseId)
    requires CanSettle(settings, w, s) && w.calls[w.sessions[s].stage.call].phase.Answered?
    requires w'.db == R.ConfirmedTables(w.db, w.sessions[s].e, w.calls[w.sessions[s].stage.call].phase.reply)
    ensures Records(settings, w, Settle(s, Replied), w', c)
  {
    var d, row := w.db.events[w.sessions[s].e].caseId, w.calls[w.sessions[s].stage.call].phase.reply;
    ConfirmedTrail(w.db, d, w.db.cases[d], row.refundId, R.Quote(row, ""), c);
  }

  lemma WebhookRecords(settings: Settings, w: World, key: ProviderKey, eventId: string, w': World, c: CaseId)
    requires Inv(settings, w) && StepWebhook(w, key, eventId) == Some(w')
    ensures Records(settings, w, Webhook(key, eventId), w', c)
  {
    DeliveryAsTabulated(settings, w, key, eventId, w');
    DeliveredRecords(settings, w, key, eventId, w', c);
  }

  lemma DeliveredRecords(settings: Settings, w: World, key: ProviderKey, eventId: string, w': World, c: CaseId)
    requires key in w.refunds && key.RefundV1? && key.caseId in w.db.attempts
    requires w.refunds[key].status == PaymentSucceeded
    requires var answer := R.WebhookAnswer(w.db, Some(key.caseId), PayloadOf(w.refunds[key], key, eventId));
             answer.Ok? && answer.value.0 == w'.db
    ensures Records(settings, w, Webhook(key, eventId), w', c)
  {
    var p := PayloadOf(w.refunds[key], key, eventId);
    var noted := w.db.(receipts := w.db.receipts[eventId := p]);
    if eventId !in w.db.receipts {
      ConfirmedTrail(noted, key.caseId, w.db.cases[key.caseId], p.refundId,
                     ProviderEvidence(p.eventId, p.refundId, p.amount, p.currency), c);
    }
  }

  lemma LookupRecords(settings: Settings, w: World, l: nat, w': World, c: CaseId)
    requires Inv(settings, w) && StepLookupCommit(w, l) == Some(w')
    ensures Records(settings, w, LookupCommit(l), w', c)
  {
    LookupFacts(settings, w, l, w');
    LookedUpRecords(settings, w, l, w', c);
  }

  lemma LookupFacts(settings: Settings, w: World, l: nat, w': World)
    requires Inv(settings, w) && StepLookupCommit(w, l) == Some(w')
    ensures LookupAnswered(w, l, w'.db)
    ensures w.lookups[l].observed.Found? ==> w.lookups[l].observed.row.status == PaymentSucceeded
  {
    LookupCommitAsTabulated(settings, w, l, w');
    FoundSucceeded(settings, w, l);
  }

  lemma LookedUpRecords(settings: Settings, w: World, l: nat, w': World, c: CaseId)
    requires LookupAnswered(w, l, w'.db)
    requires w.lookups[l].observed.Found? ==> w.lookups[l].observed.row.status == PaymentSucceeded
    ensures Records(settings, w, LookupCommit(l), w', c)
  {
    var k := w.lookups[l];
    match k.observed {
      case Found(row) => ConfirmedTrail(w.db, k.c, k.snap, row.refundId, R.Quote(row, ""), c);
      case Absent => AbsentRecords(settings, w, l, w', c);
    }
  }

  lemma AbsentRecords(settings: Settings, w: World, l: nat, w': World, c: CaseId)
    requires LookupAnswered(w, l, w'.db) && w.lookups[l].observed.Absent?
    ensures Records(settings, w, LookupCommit(l), w', c)
  {
    var k := w.lookups[l];
    var a := w.db.attempts[k.c];
    var evidence := if k.seen.value.evidence == Some(LookupNotFound) then a.evidence else Some(LookupNotFound);
    var failed := w.db.(attempts := w.db.attempts[k.c := a.(status := AttemptStatus.Failed, evidence := evidence)]);
    HandedOverTrail(w.db, k.c, k.snap, c);
    HandedOverTrail(failed, k.c, k.snap, c);
  }

  lemma CreateRecords(settings: Settings, w: World, step: Step, w': World, c: CaseId)
    requires step.Create? && StepCreate(w, step.context, step.c, step.requested, step.currency) == Some(w')
    ensures Records(settings, w, step, w', c)
  {
    OpeningsAsTabulated(w.db, step.context, step.c, step.requested, step.currency);
    NoAttemptRows(w.db.audit, w'.db.audit, c);
  }

  lemma WorkerRecords(config: Config, w: World, step: Step, w': World, c: CaseId)
    requires OfWorker(step) && Inv(config.settings, w) && Next(config, w, step) == Some(w')
    ensures Records(config.settings, w, step, w', c)
  {
    if step.Claim? {
      NextClaims(config, w, step.s, step.e, w');
      ClaimRecords(config, w, step.s, step.e, w', c);
    } else if step.Begin? {
      NextBegins(config, w, step.s, w');
      BeginRecords(config.settings, w, step.s, w', c);
    } else {
      NextSettles(config, w, step.s, step.outcome, w');
      SettleRecords(config.settings, w, step.s, step.outcome, w', c);
    }
  }

  lemma ClaimRecords(config: Config, w: World, s: nat, e: EventId, w': World, c: CaseId)
    requires StepClaim(config, w, s, e) == Some(w')
    ensures Records(config.settings, w, Claim(s, e), w', c)
  {
    NoRow(w.db.audit, c, OrgOf(w.db, c));
  }

  lemma CommittedRecords(config: Config, w: World, step: Step, w': World, c: CaseId)
    requires Commits(step) && Inv(config.settings, w) && Next(config, w, step) == Some(w')
    ensures Records(config.settings, w, step, w', c)
  {
    match step
    case Create(context, d, requested, currency) =>
      NextCreates(config, w, context, d, requested, currency, w');
      CreateRecords(config.settings, w, step, w', c);
    case TxnCommit(t, newEvent) =>
      NextCommits(config, w, t, newEvent, w');
      CommitRecords(config.settings, w, t, newEvent, w', c);
    case LookupCommit(l) =>
      NextReconciles(config, w, l, w');
      LookupRecords(config.settings, w, l, w', c);
    case Webhook(key, eventId) =>
      NextDelivers(config, w, key, eventId, w');
      WebhookRecords(config.settings, w, key, eventId, w', c);
  }

  /** Every step appends to the trail of every attempt exactly what `Recorded` lists. */
  lemma StepRecords(config: Config, w: World, step: Step, w': World, c: CaseId)
    requires Inv(config.settings, w) && Next(config, w, step) == Some(w')
    ensures var more := Recorded(config.settings, w, step, c);
            AttemptTrail(w'.db.audit, c)
            == AttemptTrail(w.db.audit, c)
               + seq(|more|, i requires 0 <= i < |more| =>
                       AuditRow(OrgOf(w.db, c), None, more[i], AttemptResource(c), None, None))
  {
    if OfWorker(step) {
      WorkerRecords(config, w, step, w', c);
    } else if Commits(step) {
      CommittedRecords(config, w, step, w', c);
    } else {
      OtherTablesUntouched(config, w, step, w');
      NoRow(w.db.audit, c, OrgOf(w.db, c));
    }
  }
}
