/** `services/case_store.py` in its own form. */
module CaseStoreService {
  import opened Domain
  import opened Tables
  import opened Sessions
  import CaseStore
  import Returns

  method GetCase(db: Session, context: Context, c: CaseId) returns (r: Result<CaseRow>)
    ensures r == if c in db.cases && db.cases[c].org == context.org then Ok(db.cases[c]) else Err(NotFound)
  {
    if c !in db.cases || db.cases[c].org != context.org {
      return Err(NotFound);
    }
    r := Ok(db.cases[c]);
  }

  /** `c` is the id drawn for the new case. Customer service, automation or an administrator opens it, for an
      amount above zero; the refusals are told apart in the order of the code. */
  method CreateCase(db: Session, context: Context, c: CaseId, requested: int, currency: string) returns (r: Result<()>)
    modifies db
    ensures Meets(db.Contents(), r, CaseStore.CreateCase(old(db.Contents()), context, c, requested, currency))
    ensures r.Ok? <==> context.role in {CustomerService, Automation, Admin} && requested > 0 && c !in old(db.cases)
    ensures r == Err(PermissionDenied) <==> context.role !in {CustomerService, Automation, Admin}
    ensures r == Err(Conflict) <==> context.role in {CustomerService, Automation, Admin} && requested <= 0
    ensures r == Err(UniqueViolation) <==>
              context.role in {CustomerService, Automation, Admin} && requested > 0 && c in old(db.cases)
    ensures r.Ok? ==>
              && db.cases == old(db.cases)[c := CaseRow(context.org, requested, None, Upper(currency), Requested, 1)]
              && db.audit == old(db.audit) + [AuditRow(context.org, Some(context.user), ReturnCreated,
                                                       CaseResource(c), None, Some(db.cases[c]))]
  {
    if !HasRole(context, {CustomerService, Automation}) {
      return Err(PermissionDenied);
    }
    if requested <= 0 {
      return Err(Conflict);
    }
    if c in db.cases {
      return Err(UniqueViolation);
    }
    var row := CaseRow(context.org, requested, None, Upper(currency), Requested, 1);
    db.cases := db.cases[c := row];
    db.RecordAudit(AuditRow(context.org, Some(context.user), ReturnCreated, CaseResource(c), None, Some(row)));
    r := Ok(());
  }

  /** `UPDATE ... WHERE id, organization, version and status are those read`; the result is `rowcount`. */
  method GuardedUpdate(db: Session, c: CaseId, read: CaseRow, status: ReturnStatus, version: int, approved: Option<int>)
    returns (affected: nat)
    modifies db`cases
    ensures affected == if CaseStore.GuardHolds(old(db.Contents()), c, read) then 1 else 0
    ensures affected == 1 <==>
              && c in old(db.cases) && old(db.cases)[c].org == read.org
              && old(db.cases)[c].version == read.version && old(db.cases)[c].status == read.status
    ensures affected == 0 ==> db.cases == old(db.cases)
    ensures affected == 1 ==>
              && c in old(db.cases)
              && var row := old(db.cases)[c].(status := status, version := version);
                 db.cases == old(db.cases)[c := if approved.Some? then row.(approved := approved) else row]
  {
    affected := 0;
    if c in db.cases {
      var row := db.cases[c];
      if row.org == read.org && row.version == read.version && row.status == read.status {
        row := row.(status := status, version := version);
        if approved.Some? {
          row := row.(approved := approved);
        }
        db.cases := db.cases[c := row];
        affected := 1;
      }
    }
  }

  /** `_cas_transition`; `read` is the case as it was loaded, and the table may have moved on since. */
  method CasTransition(db: Session, c: CaseId, read: CaseRow, target: ReturnStatus, context: Option<Context>,
                       system: bool, expected: int, approved: Option<int>, action: Action) returns (r: Result<()>)
    modifies db
    ensures Meets(db.Contents(), r, CaseStore.CasTransition(old(db.Contents()), c, read, target, context, system,
                                                            expected, approved, action))
  {
    if expected != read.version {
      return Err(VersionConflict);
    }
    var _ :- AssertTransition(read.status, target);
    var role := if context.None? then None else Some(context.value.role);
    var _ :- AssertActorCanTransition(role, target, system);

    var affected := GuardedUpdate(db, c, read, target, read.version + 1, approved);
    if affected != 1 {
      return Err(VersionConflict);
    }
    var actor := if context.None? then None else Some(context.value.user);
    db.RecordAudit(AuditRow(read.org, actor, action, CaseResource(c), Some(read), Some(db.cases[c])));
    r := Ok(());
  }

  method SystemTransition(db: Session, c: CaseId, read: CaseRow, target: ReturnStatus) returns (r: Result<()>)
    modifies db
    ensures Meets(db.Contents(), r, CaseStore.SystemTransition(old(db.Contents()), c, read, target))
  {
    r := CasTransition(db, c, read, target, None, true, read.version, None, SystemReturn(target));
  }
}
