/** A human command as one request: `get_session` commits it, or rolls back when it raises. */
module RequestService {
  import opened Domain
  import opened Tables
  import opened CaseStore
  import opened Sessions
  import opened Returns
  import opened Ledger
  import RefundService
  import ReturnService

  method RunCommand(m: ReturnService.Moment, db: Session, context: Context, cmd: Command) returns (r: Result<bool>)
    modifies db
    ensures MeetsWith(db.Contents(), r, Exec(m.settings, old(db.Contents()), context, cmd, m.now, m.newEvent))
  {
    var done: Result<()>;
    match cmd.op {
      case ApproveRefundOf(amount) =>
        r := RefundService.ApproveRefund(m.settings, db, context, cmd.c, cmd.expected, amount, m.now, m.newEvent);
        return;
      case Authorize => done := ReturnService.AuthorizeCase(m, db, context, cmd.c, cmd.expected);
      case Receive => done := ReturnService.ReceiveCase(m, db, context, cmd.c, cmd.expected);
      case Inspect => done := ReturnService.InspectCase(m, db, context, cmd.c, cmd.expected);
      case Reject => done := ReturnService.RejectCase(m, db, context, cmd.c, cmd.expected);
      case RetryFailed => done := ReturnService.RetryFailedRefund(m, db, context, cmd.c, cmd.expected);
      case MarkReconciled => done := ReturnService.ReconcileCase(m, db, context, cmd.c, cmd.expected);
      case Close => done := ReturnService.CloseCase(m, db, context, cmd.c, cmd.expected);
    }
    AnswersFalse(m, old(db.Contents()), context, cmd);
    r := if done.Ok? then Ok(false) else Err(done.error);
  }

  lemma AnswersFalse(m: ReturnService.Moment, db: Db, context: Context, cmd: Command)
    requires !cmd.op.ApproveRefundOf?
    ensures var r := Exec(m.settings, db, context, cmd, m.now, m.newEvent); r.Ok? ==> !r.value.1
  {
  }

  /** The tables either hold the whole effect of the command or are as they were, and the invariant
      they satisfied before still holds. */
  method Serve(m: ReturnService.Moment, database: Database, context: Context, cmd: Command) returns (r: Result<bool>)
    requires DbInv(m.settings, database.tables)
    modifies database
    ensures match Exec(m.settings, old(database.tables), context, cmd, m.now, m.newEvent)
            case Ok(done) => r == Ok(done.1) && database.tables == done.0
            case Err(error) => r == Err(error) && database.tables == old(database.tables)
    ensures DbInv(m.settings, database.tables)
  {
    var db := new Session(database);
    r := RunCommand(m, db, context, cmd);
    if r.Ok? {
      ExecKeeps(m.settings, old(database.tables), context, cmd, AttemptOf(old(database.tables), context, cmd.c), m.now,
                m.newEvent, Exec(m.settings, old(database.tables), context, cmd, m.now, m.newEvent).value);
      db.Commit();
    } else {
      db.Rollback();
    }
  }
}
