/** What the writers of `services/case_store.py` do to the database. */
module CaseStore {
  import opened Domain
  import opened Tables

  function Audited(db: Db, row: AuditRow): Db {
    db.(audit := db.audit + [row])
  }

  function ActorOf(context: Option<Context>): Option<Uuid> {
    if context.Some? then Some(context.value.user) else None
  }

  function RoleOf(context: Option<Context>): Option<Role> {
    if context.Some? then Some(context.value.role) else None
  }

  /** The row an update writes over `current` for a transition decided on `snap`. */
  function MovedRow(current: CaseRow, snap: CaseRow, target: ReturnStatus, approved: Option<int>): CaseRow {
    current.(status := target,
             version := snap.version + 1,
             approved := if approved.Some? then approved else current.approved)
  }

  /** A transition of case `c` together with its audit row. */
  function CaseMoved(db: Db, c: CaseId, snap: CaseRow, target: ReturnStatus, context: Option<Context>,
                     approved: Option<int>, action: Action): Db
    requires c in db.cases
  {
    var row := MovedRow(db.cases[c], snap, target, approved);
    Audited(db.(cases := db.cases[c := row]),
            AuditRow(snap.org, ActorOf(context), action, CaseResource(c), Some(snap), Some(row)))
  }

  /** The `WHERE` clause of a guarded update: the row read earlier is still there. */
  predicate GuardHolds(db: Db, c: CaseId, snap: CaseRow) {
    && c in db.cases
    && db.cases[c].org == snap.org
    && db.cases[c].version == snap.version
    && db.cases[c].status == snap.status
  }

  /** `_cas_transition`: `snap` is the case as the caller read it, perhaps long ago. */
  function CasTransition(db: Db, c: CaseId, snap: CaseRow, target: ReturnStatus, context: Option<Context>,
                         system: bool, expected: int, approved: Option<int>, action: Action): Result<Db>
  {
    if expected != snap.version then Err(VersionConflict)
    else
      var _ :- AssertTransition(snap.status, target);
      var _ :- AssertActorCanTransition(RoleOf(context), target, system);
      if GuardHolds(db, c, snap) then Ok(CaseMoved(db, c, snap, target, context, approved, action))
      else Err(VersionConflict)
  }

  /** `system_transition` on a case read in the same step. */
  function SystemTransition(db: Db, c: CaseId, snap: CaseRow, target: ReturnStatus): Result<Db> {
    CasTransition(db, c, snap, target, None, true, snap.version, None, SystemReturn(target))
  }

  /** The attempt of a case, as the services query it: by case and organization. */
  function AttemptOf(db: Db, context: Context, c: CaseId): Option<Attempt> {
    if c in db.attempts && db.attempts[c].org == context.org then Some(db.attempts[c]) else None
  }

  function NewCase(context: Context, requested: int, currency: string): CaseRow {
    CaseRow(context.org, requested, None, Upper(currency), Requested, 1)
  }

  /** `create_case` under the fresh id `c`. */
  function CreateCase(db: Db, context: Context, c: CaseId, requested: int, currency: string): Result<Db> {
    if !HasRole(context, {CustomerService, Automation}) then Err(PermissionDenied)
    else if requested <= 0 then Err(Conflict)
    else if c in db.cases then Err(UniqueViolation)
    else
      var row := NewCase(context, requested, currency);
      Ok(Audited(db.(cases := db.cases[c := row]),
                 AuditRow(context.org, Some(context.user), ReturnCreated, CaseResource(c), None, Some(row))))
  }
}
