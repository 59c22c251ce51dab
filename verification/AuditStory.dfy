/** What the audit rows about an attempt tell of its past, in every run (level FREE). */
module AuditStory {
  import opened Domain
  import opened Tables
  import opened Returns
  import opened Cells
  import opened Protocol
  import opened Safety
  import opened Guarantees
  import opened Attempts
  import opened Tabulated
  import opened AuditTrail
  import R = Reference

  /* Steps: a status changes together with its row. */

  /** No step but the plan of a refund brings a new attempt. */
  lemma AttemptsAreKept(config: Config, w: World, step: Step, w': World)
    requires !step.TxnCommit? && Inv(config.settings, w) && Next(config, w, step) == Some(w')
    ensures w'.db.attempts.Keys == w.db.attempts.Keys
  {
    StepsAsTabulated(config, w, step, w');
    TablesKeepAttempts(config.settings, w, step);
  }

  lemma TablesKeepAttempts(settings: Settings, w: World, step: Step)
    requires !step.TxnCommit?
    ensures R.TablesAfter(settings, w, step).attempts.Keys == w.db.attempts.Keys
  {
    match step {
      case LookupCommit(l) => LookupKeepsAttempts(w, l);
      case Webhook(key, eventId) => DeliveryKeepsAttempts(w, key, eventId);
      case Settle(s, outcome) => SettlementKeepsAttempts(settings, w, s, outcome);
      case _ =>
    }
  }

  lemma LookupKeepsAttempts(w: World, l: nat)
    ensures R.LookupTables(w, l).attempts.Keys == w.db.attempts.Keys
  {
  }

  lemma DeliveryKeepsAttempts(w: World, key: ProviderKey, eventId: string)
    ensures R.WebhookTables(w, key, eventId).attempts.Keys == w.db.attempts.Keys
  {
  }

  lemma SettlementKeepsAttempts(settings: Settings, w: World, s: nat, outcome: Outcome)
    ensures R.SettledTables(settings, w, s, outcome).attempts.Keys == w.db.attempts.Keys
  {
  }

  lemma CommandsPlanAttempts(settings: Settings, db: Db, context: Context, cmd: Command, seen: Option<Attempt>,
                             now: Time, e: EventId, c: CaseId)
    requires c !in db.attempts
    ensures var r := R.CommandAnswer(settings, db, context, cmd, seen, now, e);
            r.Ok? && c in r.value.0.attempts ==> r.value.0.attempts[c].status == Planned
  {
  }

  /** A new attempt starts out planned. */
  lemma NewAttemptsArePlanned(config: Config, w: World, step: Step, w': World, c: CaseId)
    requires Inv(config.settings, w) && Next(config, w, step) == Some(w')
    requires c !in w.db.attempts && c in w'.db.attempts
    ensures step.TxnCommit? && w'.db.attempts[c].status == Planned
  {
    if step.TxnCommit? {
      StepsAsTabulated(config, w, step, w');
      if step.t in w.txns {
        var txn := w.txns[step.t];
        CommandsPlanAttempts(config.settings, w.db, txn.context, txn.cmd, txn.seen, w.now, step.newEvent, c);
      }
    } else {
      AttemptsAreKept(config, w, step, w');
      assert false;
    }
  }

  predicate StatusIn(db: Db, c: CaseId, status: AttemptStatus) {
    c in db.attempts && db.attempts[c].status == status
  }

  lemma RecordsMarkStatus(config: Config, w: World, step: Step, w': World, c: CaseId)
    requires Inv(config.settings, w) && Next(config, w, step) == Some(w')
    ensures OutcomeUnknown in Recorded(config.settings, w, step, c) ==> StatusIn(w'.db, c, Unknown)
    ensures StatusIn(w'.db, c, Unknown) ==>
              StatusIn(w.db, c, Unknown) || OutcomeUnknown in Recorded(config.settings, w, step, c)
    ensures ProviderConfirmed in Recorded(config.settings, w, step, c) ==> StatusIn(w'.db, c, Succeeded)
    ensures StatusIn(w'.db, c, Succeeded) ==>
              StatusIn(w.db, c, Succeeded) || ProviderConfirmed in Recorded(config.settings, w, step, c)
  {
    if c in w.db.attempts {
      StepMovesAttempt(config, w, step, w', c);
      StepIsGrounded(config, w, step, w', c);
      MarksAfter(config.settings, w, step, c, w.db.attempts[c]);
    } else if c in w'.db.attempts {
      NewAttemptsArePlanned(config, w, step, w', c);
    }
  }

  lemma MarksAfter(settings: Settings, w: World, step: Step, c: CaseId, a: Attempt)
    requires c in w.db.attempts && a == w.db.attempts[c] && Grounded(w, step, c)
    ensures var status, more := AttemptAfter(w, step, c, a).status, Recorded(settings, w, step, c);
            && (OutcomeUnknown in more ==> status == Unknown)
            && (ProviderConfirmed in more ==> status == Succeeded)
            && (status != a.status ==> Tells(step, status, more))
  {
  }

  /** What has been recorded tells the new status of the attempt. */
  predicate Tells(step: Step, status: AttemptStatus, more: seq<Action>) {
    match status
    case Unknown => more == [OutcomeUnknown]
    case Succeeded => more == [ProviderConfirmed]
    case Failed =>
      if step.Settle? then more != [] && more[0] == DispatchKnownFailure
      else step.LookupCommit? && more == [ManualReconciliationRequired]
    case Planned => step.TxnCommit?
    case Dispatching => step.Begin?
  }

  lemma ChangesTell(config: Config, w: World, step: Step, w': World, c: CaseId)
    requires Inv(config.settings, w) && Next(config, w, step) == Some(w')
    requires c in w.db.attempts && c in w'.db.attempts && w'.db.attempts[c].status != w.db.attempts[c].status
    ensures Tells(step, w'.db.attempts[c].status, Recorded(config.settings, w, step, c))
  {
    StepMovesAttempt(config, w, step, w', c);
    StepIsGrounded(config, w, step, w', c);
    MarksAfter(config.settings, w, step, c, w.db.attempts[c]);
  }

  lemma TrailTells(settings: Settings, w: World, step: Step, w': World, c: CaseId, status: AttemptStatus)
    requires Records(settings, w, step, w', c) && Tells(step, status, Recorded(settings, w, step, c))
    ensures ToldBy(step, status, w.db, AttemptTrail(w.db.audit, c), AttemptTrail(w'.db.audit, c), c)
  {
    var more := Recorded(settings, w, step, c);
    if |more| > 0 {
      assert AttemptTrail(w'.db.audit, c)[|AttemptTrail(w.db.audit, c)|] == EntryOf(w.db, c, more[0]);
    }
  }

  /** The row by which a change to `status` is told. */
  predicate ToldBy(step: Step, status: AttemptStatus, db: Db, trail: seq<AuditRow>, trail': seq<AuditRow>, c: CaseId) {
    match status
    case Unknown => trail' == trail + [EntryOf(db, c, OutcomeUnknown)]
    case Succeeded => trail' == trail + [EntryOf(db, c, ProviderConfirmed)]
    case Failed =>
      if step.Settle? then trail + [EntryOf(db, c, DispatchKnownFailure)] <= trail'
      else step.LookupCommit? && trail' == trail + [EntryOf(db, c, ManualReconciliationRequired)]
    case Planned => step.TxnCommit?
    case Dispatching => step.Begin?
  }

  /** An attempt that changes its status gets its row in the same step: `refund.outcome_unknown` when it becomes
      UNKNOWN, `refund.provider_confirmed` when SUCCEEDED, `refund.dispatch_known_failure` when a refusal makes
      it FAILED, `refund.manual_reconciliation_required` when a lookup does. It becomes PLANNED again only by a
      command, and DISPATCHING only when a dispatch begins. */
  lemma StatusChangesAreRecorded(config: Config, w: World, step: Step, w': World, c: CaseId)
    requires Inv(config.settings, w) && Next(config, w, step) == Some(w')
    requires c in w.db.attempts && c in w'.db.attempts && w'.db.attempts[c].status != w.db.attempts[c].status
    ensures ToldBy(step, w'.db.attempts[c].status, w.db, AttemptTrail(w.db.audit, c), AttemptTrail(w'.db.audit, c), c)
  {
    StepRecords(config, w, step, w', c);
    ChangesTell(config, w, step, w', c);
    TrailTells(config.settings, w, step, w', c, w'.db.attempts[c].status);
  }

  /** A row about the attempt of case `c`: of its organization, with no user behind it. */
  function EntryOf(db: Db, c: CaseId, action: Action): AuditRow {
    AuditRow(OrgOf(db, c), None, action, AttemptResource(c), None, None)
  }

  /* Runs. */

  /** The step finds the dispatch of case `c` begun by somebody else. */
  predicate TakesOver(w: World, step: Step, c: CaseId) {
    && step.Begin? && WorksOn(w, step.s, c)
    && w.db.events[w.sessions[step.s].e].status == Processing
    && StatusIn(w.db, c, Dispatching)
  }

  /** The step is a refusal after the last attempt, or a lookup that has found no refund. */
  predicate HandsOver(settings: Settings, w: World, step: Step, c: CaseId) {
    || (RefusesFor(w, step, c) && w.db.events[w.sessions[step.s].e].attempts >= settings.maxDispatchAttempts)
    || (step.LookupCommit? && step.l in w.lookups && w.lookups[step.l].c == c && w.lookups[step.l].observed.Absent?)
  }

  predicate OnRecordAfter(settings: Settings, w: World, step: Step, c: CaseId, more: seq<Action>) {
    && (DispatchKnownFailure in more <==> RefusesFor(w, step, c))
    && (DispatchRecovered in more <==> TakesOver(w, step, c))
    && (ManualReconciliationRequired in more <==> HandsOver(settings, w, step, c))
  }

  lemma StepOnRecord(settings: Settings, w: World, step: Step, c: CaseId)
    requires Grounded(w, step, c)
    requires step.LookupCommit? && step.l in w.lookups ==> w.lookups[step.l].c in w.db.attempts
    ensures OnRecordAfter(settings, w, step, c, Recorded(settings, w, step, c))
  {
  }

  /** In one of the first `n` worlds after the start, or at the start, the attempt has had this status. */
  ghost predicate HasBeen(run: Run, n: nat, c: CaseId, status: AttemptStatus)
    requires n < |run.worlds|
  {
    exists i :: 0 <= i <= n && StatusIn(run.worlds[i].db, c, status)
  }

  lemma HasBeenStep(run: Run, n: nat, c: CaseId, status: AttemptStatus)
    requires 0 < n < |run.worlds|
    ensures HasBeen(run, n, c, status) <==> HasBeen(run, n - 1, c, status) || StatusIn(run.worlds[n].db, c, status)
    ensures StatusIn(run.worlds[n - 1].db, c, status) ==> HasBeen(run, n - 1, c, status)
  {
  }

  ghost predicate HasRefused(run: Run, n: nat, c: CaseId)
    requires n <= |run.steps| < |run.worlds|
  {
    exists i :: 0 <= i < n && RefusesFor(run.worlds[i], run.steps[i], c)
  }

  ghost predicate HasTakenOver(run: Run, n: nat, c: CaseId)
    requires n <= |run.steps| < |run.worlds|
  {
    exists i :: 0 <= i < n && TakesOver(run.worlds[i], run.steps[i], c)
  }

  ghost predicate HasHandedOver(settings: Settings, run: Run, n: nat, c: CaseId)
    requires n <= |run.steps| < |run.worlds|
  {
    exists i :: 0 <= i < n && HandsOver(settings, run.worlds[i], run.steps[i], c)
  }

  lemma StepsBefore(settings: Settings, run: Run, n: nat, c: CaseId)
    requires 0 < n <= |run.steps| < |run.worlds|
    ensures var w, step := run.worlds[n - 1], run.steps[n - 1];
            && (HasRefused(run, n, c) <==> HasRefused(run, n - 1, c) || RefusesFor(w, step, c))
            && (HasTakenOver(run, n, c) <==> HasTakenOver(run, n - 1, c) || TakesOver(w, step, c))
            && (HasHandedOver(settings, run, n, c)
                <==> HasHandedOver(settings, run, n - 1, c) || HandsOver(settings, w, step, c))
  {
  }

  lemma LookupHasAttempt(w: World, l: nat, w': World)
    requires StepLookupCommit(w, l) == Some(w')
    ensures l in w.lookups && w.lookups[l].c in w.db.attempts
  {
  }

  /** The trail is made of these actions; there are none as long as there is no attempt. */
  predicate TrailIs(db: Db, c: CaseId, story: seq<Action>) {
    && AttemptTrail(db.audit, c) == seq(|story|, i requires 0 <= i < |story| => EntryOf(db, c, story[i]))
    && (c !in db.attempts ==> story == [])
  }

  lemma NoTrail(c: CaseId)
    ensures TrailIs(INITIAL.db, c, [])
  {
  }

  lemma TrailGoesOn(before: Db, after: Db, c: CaseId, story: seq<Action>, more: seq<Action>)
    requires TrailIs(before, c, story) && TrailGrows(before.audit, after.audit, c, OrgOf(before, c), more)
    requires c in before.attempts ==> c in after.attempts && OrgOf(after, c) == OrgOf(before, c)
    requires c !in before.attempts ==> more == []
    ensures TrailIs(after, c, story + more)
  {
  }

  lemma AttemptStays(before: Db, after: Db, c: CaseId)
    requires DbEvolves(before, after) && c in before.attempts
    ensures c in after.attempts && after.attempts[c].org == before.attempts[c].org
  {
    assert CellEvolvesOrDispatches(CellOf(before, c), CellOf(after, c));
  }

  /* What the next step adds. */

  lemma RunRecords(config: Config, run: Run, k: nat, c: CaseId, more: seq<Action>)
    requires IsRun(config, run) && k < |run.steps|
    requires more == Recorded(config.settings, run.worlds[k], run.steps[k], c)
    ensures TrailGrows(run.worlds[k].db.audit, run.worlds[k + 1].db.audit, c, OrgOf(run.worlds[k].db, c), more)
    ensures c !in run.worlds[k].db.attempts ==> more == []
    ensures c in run.worlds[k].db.attempts ==>
              c in run.worlds[k + 1].db.attempts
              && OrgOf(run.worlds[k + 1].db, c) == OrgOf(run.worlds[k].db, c)
  {
    RunStep(config, run, k);
    StepRecords(config, run.worlds[k], run.steps[k], run.worlds[k + 1], c);
    if c in run.worlds[k].db.attempts {
      AttemptStays(run.worlds[k].db, run.worlds[k + 1].db, c);
    }
  }

  /** An unknown outcome is among the actions exactly when the attempt is marked unknown, and a confirmation
      exactly when it is marked as having succeeded. */
  predicate Marks(before: Db, after: Db, c: CaseId, more: seq<Action>) {
    && (OutcomeUnknown in more ==> StatusIn(after, c, Unknown))
    && (StatusIn(after, c, Unknown) ==> StatusIn(before, c, Unknown) || OutcomeUnknown in more)
    && (ProviderConfirmed in more ==> StatusIn(after, c, Succeeded))
    && (StatusIn(after, c, Succeeded) ==> StatusIn(before, c, Succeeded) || ProviderConfirmed in more)
  }

  lemma RunMarks(config: Config, run: Run, k: nat, c: CaseId, more: seq<Action>)
    requires IsRun(config, run) && k < |run.steps|
    requires more == Recorded(config.settings, run.worlds[k], run.steps[k], c)
    ensures Marks(run.worlds[k].db, run.worlds[k + 1].db, c, more)
  {
    RunStep(config, run, k);
    RecordsMarkStatus(config, run.worlds[k], run.steps[k], run.worlds[k + 1], c);
  }

  lemma RunOnRecord(config: Config, run: Run, k: nat, c: CaseId, more: seq<Action>)
    requires IsRun(config, run) && k < |run.steps|
    requires more == Recorded(config.settings, run.worlds[k], run.steps[k], c)
    ensures OnRecordAfter(config.settings, run.worlds[k], run.steps[k], c, more)
  {
    RunStep(config, run, k);
    StepIsGrounded(config, run.worlds[k], run.steps[k], run.worlds[k + 1], c);
    if run.steps[k].LookupCommit? {
      NextReconciles(config, run.worlds[k], run.steps[k].l, run.worlds[k + 1]);
      LookupHasAttempt(run.worlds[k], run.steps[k].l, run.worlds[k + 1]);
    }
    StepOnRecord(config.settings, run.worlds[k], run.steps[k], c);
  }

  lemma RunTells(config: Config, run: Run, k: nat, c: CaseId) returns (more: seq<Action>)
    requires IsRun(config, run) && k < |run.steps|
    ensures TrailGrows(run.worlds[k].db.audit, run.worlds[k + 1].db.audit, c, OrgOf(run.worlds[k].db, c), more)
    ensures c !in run.worlds[k].db.attempts ==> more == []
    ensures c in run.worlds[k].db.attempts ==>
              c in run.worlds[k + 1].db.attempts
              && OrgOf(run.worlds[k + 1].db, c) == OrgOf(run.worlds[k].db, c)
    ensures Marks(run.worlds[k].db, run.worlds[k + 1].db, c, more)
    ensures OnRecordAfter(config.settings, run.worlds[k], run.steps[k], c, more)
  {
    more := Recorded(config.settings, run.worlds[k], run.steps[k], c);
    RunRecords(config, run, k, c, more);
    RunMarks(config, run, k, c, more);
    RunOnRecord(config, run, k, c, more);
  }

  /* The whole story. */

  ghost predicate MarksIn(run: Run, n: nat, c: CaseId, story: seq<Action>)
    requires n < |run.worlds|
  {
    && (OutcomeUnknown in story <==> HasBeen(run, n, c, Unknown))
    && (ProviderConfirmed in story <==> HasBeen(run, n, c, Succeeded))
  }

  ghost predicate StepsIn(settings: Settings, run: Run, n: nat, c: CaseId, story: seq<Action>)
    requires n <= |run.steps| < |run.worlds|
  {
    && (DispatchKnownFailure in story <==> HasRefused(run, n, c))
    && (DispatchRecovered in story <==> HasTakenOver(run, n, c))
    && (ManualReconciliationRequired in story <==> HasHandedOver(settings, run, n, c))
  }

  lemma MarksGoOn(run: Run, k: nat, c: CaseId, story: seq<Action>, more: seq<Action>)
    requires k + 1 < |run.worlds|
    requires MarksIn(run, k, c, story) && Marks(run.worlds[k].db, run.worlds[k + 1].db, c, more)
    ensures MarksIn(run, k + 1, c, story + more)
  {
    HasBeenStep(run, k + 1, c, Unknown);
    HasBeenStep(run, k + 1, c, Succeeded);
  }

  lemma StepsGoOn(settings: Settings, run: Run, k: nat, c: CaseId, story: seq<Action>, more: seq<Action>)
    requires k < |run.steps| < |run.worlds|
    requires StepsIn(settings, run, k, c, story) && OnRecordAfter(settings, run.worlds[k], run.steps[k], c, more)
    ensures StepsIn(settings, run, k + 1, c, story + more)
  {
    StepsBefore(settings, run, k + 1, c);
  }

  lemma StoryBegins(settings: Settings, run: Run, c: CaseId)
    requires 0 < |run.worlds| && |run.steps| < |run.worlds| && run.worlds[0] == INITIAL
    ensures TrailIs(run.worlds[0].db, c, []) && MarksIn(run, 0, c, []) && StepsIn(settings, run, 0, c, [])
  {
    NoTrail(c);
  }

  /** In every run the trail of an attempt is a story: rows of the attempt's organization with no user behind
      them, which tell what statuses it has had and what steps it has seen. */
  lemma {:induction false} TrailIsStory(config: Config, run: Run, n: nat, c: CaseId) returns (story: seq<Action>)
    requires IsRun(config, run) && n <= |run.steps|
    ensures TrailIs(run.worlds[n].db, c, story)
    ensures MarksIn(run, n, c, story) && StepsIn(config.settings, run, n, c, story)
  {
    if n == 0 {
      story := [];
      StoryBegins(config.settings, run, c);
    } else {
      var before := TrailIsStory(config, run, n - 1, c);
      var more := RunTells(config, run, n - 1, c);
      TrailGoesOn(run.worlds[n - 1].db, run.worlds[n].db, c, before, more);
      MarksGoOn(run, n - 1, c, before, more);
      StepsGoOn(config.settings, run, n - 1, c, before, more);
      story := before + more;
    }
  }

  /** The audit log holds a row with this action about the attempt of case `c`. */
  ghost predicate OnRecord(audit: seq<AuditRow>, c: CaseId, action: Action) {
    exists row :: row in audit && row.resource == AttemptResource(c) && row.action == action
  }

  lemma {:induction false} TrailHolds(audit: seq<AuditRow>, c: CaseId, row: AuditRow)
    ensures row in AttemptTrail(audit, c) <==> row in audit && row.resource == AttemptResource(c)
  {
    if audit != [] {
      var front := audit[..|audit| - 1];
      TrailHolds(front, c, row);
      assert audit == front + [audit[|audit| - 1]];
    }
  }

  lemma StoryIsOnRecord(db: Db, c: CaseId, story: seq<Action>, action: Action)
    requires TrailIs(db, c, story)
    ensures OnRecord(db.audit, c, action) <==> action in story
  {
    if OnRecord(db.audit, c, action) {
      var row :| row in db.audit && row.resource == AttemptResource(c) && row.action == action;
      TrailHolds(db.audit, c, row);
      var i :| 0 <= i < |AttemptTrail(db.audit, c)| && AttemptTrail(db.audit, c)[i] == row;
      assert story[i] == action;
    }
    if action in story {
      var i :| 0 <= i < |story| && story[i] == action;
      TrailHolds(db.audit, c, EntryOf(db, c, action));
      assert AttemptTrail(db.audit, c)[i] == EntryOf(db, c, action);
    }
  }

  /* Main results. */

  /** In every run the log's rows about an attempt are of its organization and name no user. */
  lemma EntriesNameNobody(config: Config, run: Run, n: nat, c: CaseId, row: AuditRow)
    requires IsRun(config, run) && n < |run.worlds|
    requires row in run.worlds[n].db.audit && row.resource == AttemptResource(c)
    ensures c in run.worlds[n].db.attempts
    ensures row == AuditRow(run.worlds[n].db.attempts[c].org, None, row.action, AttemptResource(c), None, None)
  {
    var story := TrailIsStory(config, run, n, c);
    TrailHolds(run.worlds[n].db.audit, c, row);
    var i :| 0 <= i < |AttemptTrail(run.worlds[n].db.audit, c)| && AttemptTrail(run.worlds[n].db.audit, c)[i] == row;
    assert row == EntryOf(run.worlds[n].db, c, story[i]);
  }

  /** An unknown outcome is on record if and only if the attempt has been UNKNOWN. */
  lemma UnknownIsOnRecord(config: Config, run: Run, n: nat, c: CaseId)
    requires IsRun(config, run) && n < |run.worlds|
    ensures OnRecord(run.worlds[n].db.audit, c, OutcomeUnknown)
       <==> exists i :: 0 <= i <= n && StatusIn(run.worlds[i].db, c, Unknown)
  {
    var story := TrailIsStory(config, run, n, c);
    StoryIsOnRecord(run.worlds[n].db, c, story, OutcomeUnknown);
  }

  /** A confirmation is on record if and only if the attempt has been SUCCEEDED - also when a late refusal or
      an outdated lookup has overwritten the status since. */
  lemma SuccessIsOnRecord(config: Config, run: Run, n: nat, c: CaseId)
    requires IsRun(config, run) && n < |run.worlds|
    ensures OnRecord(run.worlds[n].db.audit, c, ProviderConfirmed)
       <==> exists i :: 0 <= i <= n && StatusIn(run.worlds[i].db, c, Succeeded)
  {
    var story := TrailIsStory(config, run, n, c);
    StoryIsOnRecord(run.worlds[n].db, c, story, ProviderConfirmed);
  }

  /** A known failure is on record if and only if a refusal has been settled, a recovery if and only if a
      worker has taken over a dispatch, and the call for a human if and only if the last attempt was refused or
      a lookup found nothing. */
  lemma StepsAreOnRecord(config: Config, run: Run, n: nat, c: CaseId)
    requires IsRun(config, run) && n < |run.worlds|
    ensures var audit := run.worlds[n].db.audit;
            && (OnRecord(audit, c, DispatchKnownFailure)
                <==> exists i :: 0 <= i < n && RefusesFor(run.worlds[i], run.steps[i], c))
            && (OnRecord(audit, c, DispatchRecovered)
                <==> exists i :: 0 <= i < n && TakesOver(run.worlds[i], run.steps[i], c))
            && (OnRecord(audit, c, ManualReconciliationRequired)
                <==> exists i :: 0 <= i < n && HandsOver(config.settings, run.worlds[i], run.steps[i], c))
  {
    var story := TrailIsStory(config, run, n, c);
    StoryIsOnRecord(run.worlds[n].db, c, story, DispatchKnownFailure);
    StoryIsOnRecord(run.worlds[n].db, c, story, DispatchRecovered);
    StoryIsOnRecord(run.worlds[n].db, c, story, ManualReconciliationRequired);
  }
}
