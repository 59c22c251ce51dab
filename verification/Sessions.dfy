/** `db.py`: the committed database and the session a request or a worker works in. */
module Sessions {
  import opened Domain
  import opened Tables
  import opened CaseStore

  class Database {
    var tables: Db

    constructor ()
      ensures tables == EMPTY_DB
    {
      tables := EMPTY_DB;
    }
  }

  /** A transaction's view of the tables. Service code changes the fields; `Commit` publishes them. */
  class Session {
    const database: Database
    var cases: map<CaseId, CaseRow>
    var approvals: seq<Approval>
    var attempts: map<CaseId, Attempt>
    var events: map<EventId, Event>
    var receipts: map<string, Payload>
    var audit: seq<AuditRow>

    function Contents(): Db
      reads this
    {
      Db(cases, approvals, attempts, events, receipts, audit)
    }

    constructor (database: Database)
      ensures this.database == database && Contents() == database.tables
    {
      this.database := database;
      var tables := database.tables;
      cases, approvals, attempts := tables.cases, tables.approvals, tables.attempts;
      events, receipts, audit := tables.events, tables.receipts, tables.audit;
    }

    method Commit()
      modifies database
      ensures database.tables == Contents() == old(Contents())
    {
      database.tables := Contents();
    }

    method Rollback()
      modifies this
      ensures Contents() == database.tables
    {
      var tables := database.tables;
      cases, approvals, attempts := tables.cases, tables.approvals, tables.attempts;
      events, receipts, audit := tables.events, tables.receipts, tables.audit;
    }

    /** `record_audit`: what is on record stays and keeps its order, and of all cases only that of the row
        gets an entry, its last. */
    method RecordAudit(row: AuditRow)
      modifies this`audit
      ensures Contents() == Audited(old(Contents()), row)
      ensures old(audit) <= audit
      ensures forall c :: CaseAudit(audit, c)
                       == CaseAudit(old(audit), c) + (if row.resource == CaseResource(c) then [row] else [])
    {
      forall c {
        CaseAuditAppend(audit, row, c);
      }
      audit := audit + [row];
    }
  }

  /** A service has done what `spec` says, or raised its error. What an error leaves in the session
      is of no account: `get_session` rolls back. */
  predicate Meets<T>(after: Db, r: Result<T>, spec: Result<Db>) {
    match spec
    case Ok(db) => r.Ok? && after == db
    case Err(error) => r == Err(error)
  }

  /** The same for a service that also answers something. */
  predicate MeetsWith<T(==)>(after: Db, r: Result<T>, spec: Result<(Db, T)>) {
    match spec
    case Ok(done) => r == Ok(done.1) && after == done.0
    case Err(error) => r == Err(error)
  }
}
