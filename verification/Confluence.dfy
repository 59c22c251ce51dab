/** Success evidence is confluent: a synchronous reply, webhooks and lookups about one provider row
    lead to one outcome, in whatever mix, order and number they arrive. */
module Confluence {
  import opened Domain
  import opened Tables
  import opened Payments
  import opened Provider
  import opened Confirmation
  import opened Worker
  import opened Cells
  import opened Ledger
  import opened Settlement
  import opened Exclusive

  /** One way to learn that the refund of a case has been made: the reply to the worker of event
      `e`, a webhook, or a lookup by finance that read the case, and then the attempt, either now or
      already at the start. */
  datatype Report =
    | SyncReply(e: EventId)
    | Delivery(eventId: string)
    | LookupAnswer(context: Context, caseEarly: bool, attemptEarly: bool)

  /** The transaction a report about provider row `row` starts on `db`; `start` is the database when
      the first report was on its way. */
  ghost function Confirm(start: Db, db: Db, c: CaseId, row: ProviderRow, k: Report): Result<Db> {
    match k
    case SyncReply(e) =>
      if e in db.events && db.events[e].caseId == c && c in db.attempts then SettleReply(db, e, row)
      else Err(NotFound)
    case Delivery(eventId) =>
      var r :- ProcessWebhook(db, PayloadOf(row, RefundV1(c), eventId));
      Ok(r.0)
    case LookupAnswer(context, caseEarly, attemptEarly) =>
      var snap :- ReadUncertainCase(if caseEarly then start else db, context, c);
      var seen :- ReadItsAttempt(if attemptEarly then start else db, context, c);
      if c !in db.attempts then Err(RuntimeFailure)
      else
        var r :- Reconcile(db, c, snap, seen, Found(row));
        Ok(r.0)
  }

  ghost function Confirmed(start: Db, db: Db, c: CaseId, row: ProviderRow, k: Report): Db {
    match Confirm(start, db, c, row, k)
    case Ok(db') => db'
    case Err(_) => db
  }

  ghost function AfterAll(start: Db, c: CaseId, row: ProviderRow, reports: seq<Report>): Db {
    if reports == [] then start
    else Confirmed(start, AfterAll(start, c, row, reports[..|reports| - 1]), c, row, reports[|reports| - 1])
  }

  /** A report `db` has not heard yet and would not refuse. */
  predicate Counts(db: Db, c: CaseId, k: Report)
    requires c in db.cases
  {
    match k
    case SyncReply(e) => e in db.events && db.events[e].caseId == c
    case Delivery(eventId) => eventId != "" && eventId !in db.receipts
    case LookupAnswer(context, _, _) =>
      HasRole(context, {Finance}) && context.org == db.cases[c].org && Uncertain(db.cases[c].status)
  }

  /** The case waits for the outcome of a refund that the provider has made as row `row`. */
  ghost predicate Awaits(settings: Settings, db: Db, c: CaseId, row: ProviderRow) {
    && DbInv(settings, db)
    && c in db.cases && c in db.attempts
    && (db.cases[c].status == RefundPending || Uncertain(db.cases[c].status))
    && RowMatches(row, db.attempts[c])
  }

  /** The one outcome: version raised by one, status and reference as confirmed. */
  ghost predicate CaseSettled(settings: Settings, start: Db, db: Db, c: CaseId, row: ProviderRow)
    requires c in start.cases && c in start.attempts
  {
    && DbInv(settings, db) && OnlyCell(start, db, c)
    && c in db.cases && c in db.attempts
    && db.cases[c] == start.cases[c].(status := Refunded, version := start.cases[c].version + 1)
    && db.attempts[c] == start.attempts[c].(status := Succeeded, providerRef := Some(row.refundId),
                                            evidence := db.attempts[c].evidence)
  }

  /* Accepting evidence. */

  lemma SuccessGoesThrough(db: Db, c: CaseId, row: ProviderRow, evidence: Evidence)
    requires CaseLoads(db, c) && RowMatches(row, db.attempts[c])
    requires exists eventId :: evidence == EvidenceOf(row, eventId)
    ensures EvidenceAgrees(db.attempts[c], row.refundId, evidence)
    ensures MarkSuccess(db, c, db.attempts[c], db.cases[c], row.refundId, evidence).Ok?
  {
  }

  /** What one accepted report makes of the cell. */
  ghost predicate Accepted(settings: Settings, db: Db, c: CaseId, row: ProviderRow, db': Db)
    requires CellOf(db, c).attempt.Some? && c in db.cases
  {
    && DbInv(settings, db') && OnlyCell(db, db', c)
    && exists evidence :: CellOf(db', c) == SuccessCell(CellOf(db, c), db.cases[c], row.refundId, evidence, c)
  }

  lemma AcceptedReply(settings: Settings, start: Db, db: Db, c: CaseId, row: ProviderRow, e: EventId)
    requires DbInv(settings, db) && c in db.attempts && RowMatches(row, db.attempts[c])
    requires e in db.events && db.events[e].caseId == c
    ensures c in db.cases
    ensures Confirm(start, db, c, row, SyncReply(e)).Ok?
    ensures Accepted(settings, db, c, row, Confirmed(start, db, c, row, SyncReply(e)))
  {
    AttemptOfEvent(settings, db, e);
    SuccessGoesThrough(db, c, row, EvidenceOf(row, ""));
    var db' := SettleReply(db, e, row).value;
    ReplyShape(settings, db, e, row, db');
    SettleReplyKeeps(settings, db, e, row, db');
  }

  lemma DeliveryGoesThrough(settings: Settings, db: Db, c: CaseId, row: ProviderRow, eventId: string)
    requires CellsOk(settings, db) && c in db.attempts && RowMatches(row, db.attempts[c])
    requires eventId != "" && eventId !in db.receipts
    ensures var r := ProcessWebhook(db, PayloadOf(row, RefundV1(c), eventId)); r.Ok? && !r.value.1
  {
    assert CellOk(settings, c, CellOf(db, c));
    var d := AttemptByKey(db.attempts, RefundV1(c));
    if d.Some? {
      assert CellOk(settings, d.value, CellOf(db, d.value));
    }
    var db1 := db.(receipts := db.receipts[eventId := PayloadOf(row, RefundV1(c), eventId)]);
    SuccessGoesThrough(db1, c, row, EvidenceOf(row, eventId));
  }

  lemma AcceptedDelivery(settings: Settings, start: Db, db: Db, c: CaseId, row: ProviderRow, eventId: string)
    requires DbInv(settings, db) && c in db.attempts && c in db.cases && RowMatches(row, db.attempts[c])
    requires eventId != "" && eventId !in db.receipts
    ensures Confirm(start, db, c, row, Delivery(eventId)).Ok?
    ensures Accepted(settings, db, c, row, Confirmed(start, db, c, row, Delivery(eventId)))
  {
    DeliveryGoesThrough(settings, db, c, row, eventId);
    var r := ProcessWebhook(db, PayloadOf(row, RefundV1(c), eventId)).value;
    WebhookEffect(settings, db, row, c, eventId, r);
    WebhookKeeps(settings, db, row, c, eventId, r);
  }

  lemma AcceptedLookup(settings: Settings, start: Db, db: Db, c: CaseId, row: ProviderRow, k: Report)
    requires Awaits(settings, db, c, row) && k.LookupAnswer? && Counts(db, c, k)
    requires k.caseEarly || k.attemptEarly ==> start == db
    ensures Confirm(start, db, c, row, k).Ok?
    ensures Accepted(settings, db, c, row, Confirmed(start, db, c, row, k))
  {
    assert CellOk(settings, c, CellOf(db, c));
    SuccessGoesThrough(db, c, row, EvidenceOf(row, ""));
    var r := Reconcile(db, c, db.cases[c], db.attempts[c], Found(row)).value;
    MarkSuccessCell(db, c, db.attempts[c], db.cases[c], row.refundId, EvidenceOf(row, ""), r.0);
    ReconcileKeeps(settings, db, c, db.cases[c], db.attempts[c], Found(row), r);
  }

  /** The first report that counts settles the case. */
  lemma FirstSettles(settings: Settings, start: Db, c: CaseId, row: ProviderRow, k: Report)
    requires Awaits(settings, start, c, row) && Counts(start, c, k)
    ensures CaseSettled(settings, start, Confirmed(start, start, c, row, k), c, row)
  {
    match k {
      case SyncReply(e) => AcceptedReply(settings, start, start, c, row, e);
      case Delivery(eventId) => AcceptedDelivery(settings, start, start, c, row, eventId);
      case LookupAnswer(_, _, _) => AcceptedLookup(settings, start, start, c, row, k);
    }
    AcceptedSettles(settings, start, c, row, Confirmed(start, start, c, row, k));
  }

  lemma AcceptedSettles(settings: Settings, db: Db, c: CaseId, row: ProviderRow, db': Db)
    requires Awaits(settings, db, c, row) && Accepted(settings, db, c, row, db')
    ensures CaseSettled(settings, db, db', c, row)
  {
    assert CellOf(db', c).row.Some? && CellOf(db', c).attempt.Some?;
  }

  /** A report that does not count changes nothing at the start. */
  lemma OthersChangeNothing(start: Db, c: CaseId, row: ProviderRow, k: Report)
    requires c in start.cases && !Counts(start, c, k)
    ensures Confirmed(start, start, c, row, k) == start
  {
  }

  /** Once settled, no further report changes case, attempt status or reference. */
  lemma StaysSettled(settings: Settings, start: Db, db: Db, c: CaseId, row: ProviderRow, k: Report)
    requires Awaits(settings, start, c, row) && CaseSettled(settings, start, db, c, row)
    ensures CaseSettled(settings, start, Confirmed(start, db, c, row, k), c, row)
  {
    if k.LookupAnswer? {
      LateLookupRefused(settings, start, db, c, row, k);
    } else if k.SyncReply? && k.e in db.events && db.events[k.e].caseId == c {
      AcceptedReply(settings, start, db, c, row, k.e);
      AcceptedAgain(settings, start, db, c, row, Confirmed(start, db, c, row, k));
    } else if k.Delivery? && k.eventId != "" && k.eventId !in db.receipts {
      AcceptedDelivery(settings, start, db, c, row, k.eventId);
      AcceptedAgain(settings, start, db, c, row, Confirmed(start, db, c, row, k));
    }
  }

  lemma AcceptedAgain(settings: Settings, start: Db, db: Db, c: CaseId, row: ProviderRow, db': Db)
    requires c in start.cases && c in start.attempts && CaseSettled(settings, start, db, c, row)
    requires Accepted(settings, db, c, row, db')
    ensures CaseSettled(settings, start, db', c, row)
  {
    OnlyCellTransitive(start, db, db', c);
    assert CellOf(db', c).row.Some? && CellOf(db', c).attempt.Some?;
  }

  /** A lookup that read before the case was settled loses to the guard, and a later one finds
      nothing uncertain. */
  lemma LateLookupRefused(settings: Settings, start: Db, db: Db, c: CaseId, row: ProviderRow, k: Report)
    requires Awaits(settings, start, c, row) && CaseSettled(settings, start, db, c, row) && k.LookupAnswer?
    ensures Confirm(start, db, c, row, k).Err?
  {
  }

  /* Main results. */

  lemma {:induction false} ReportsSettle(settings: Settings, start: Db, c: CaseId, row: ProviderRow,
                                         reports: seq<Report>)
    requires Awaits(settings, start, c, row)
    ensures if exists k :: k in reports && Counts(start, c, k)
            then CaseSettled(settings, start, AfterAll(start, c, row, reports), c, row)
            else AfterAll(start, c, row, reports) == start
  {
    if reports != [] {
      var front, last := reports[..|reports| - 1], reports[|reports| - 1];
      ReportsSettle(settings, start, c, row, front);
      assert forall k :: k in reports <==> k in front || k == last;
      if exists k :: k in front && Counts(start, c, k) {
        StaysSettled(settings, start, AfterAll(start, c, row, front), c, row, last);
      } else if Counts(start, c, last) {
        FirstSettles(settings, start, c, row, last);
      } else {
        OthersChangeNothing(start, c, row, last);
      }
    }
  }

  /** Any two mixes of reports, each with at least one that counts, agree on the case and on the
      attempt but for which evidence it quotes; the version has risen by exactly one. */
  lemma ReportsAreConfluent(settings: Settings, start: Db, c: CaseId, row: ProviderRow,
                            some: seq<Report>, others: seq<Report>)
    requires Awaits(settings, start, c, row)
    requires exists k :: k in some && Counts(start, c, k)
    requires exists k :: k in others && Counts(start, c, k)
    ensures var one, two := AfterAll(start, c, row, some), AfterAll(start, c, row, others);
            && c in one.cases && c in two.cases && c in one.attempts && c in two.attempts
            && one.cases[c] == two.cases[c]
            && one.cases[c] == start.cases[c].(status := Refunded, version := start.cases[c].version + 1)
            && one.attempts[c].(evidence := None) == two.attempts[c].(evidence := None)
            && one.attempts[c].status == Succeeded && one.attempts[c].providerRef == Some(row.refundId)
            && (forall d :: d != c ==> CellOf(one, d) == CellOf(two, d) == CellOf(start, d))
  {
    ReportsSettle(settings, start, c, row, some);
    ReportsSettle(settings, start, c, row, others);
  }
}
