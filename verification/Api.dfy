/** The human commands behind the idempotency layer, as `api/routes.py` serves them. */
module Api {
  import opened Domain
  import opened Tables
  import opened CaseStore
  import opened Returns
  import opened Ledger
  import opened Idempotency

  /** What the operation of a route does when its slot is free. */
  function RunCommand(settings: Settings, context: Context, cmd: Command, now: Time, e: EventId, db: Db)
    : Result<(Db, Response)>
  {
    match Exec(settings, db, context, cmd, now, e)
    case Err(error) => Err(error)
    case Ok(done) =>
      if cmd.c !in done.0.cases then Err(RuntimeFailure)
      else
        var view := done.0.cases[cmd.c];
        Ok((done.0, if cmd.op.ApproveRefundOf? then ApprovalResponse(view, done.1) else CaseResponse(view)))
  }

  function CommandOperation(settings: Settings, context: Context, cmd: Command, now: Time, e: EventId)
    : Db -> Result<(Db, Response)>
  {
    db => RunCommand(settings, context, cmd, now, e, db)
  }

  /** The request serves one command of its organization. */
  ghost predicate ServesCommand(settings: Settings, request: Request<Db, Command, Response>) {
    exists context: Context, cmd: Command, now: Time, e: EventId ::
      && request.slot.org == context.org
      && request.payload == cmd
      && request.operation == CommandOperation(settings, context, cmd, now, e)
  }

  lemma ServedKeeps(settings: Settings, store: Store<Db, Command, Response>, request: Request<Db, Command, Response>)
    requires DbInv(settings, store.business) && ServesCommand(settings, request)
    ensures DbInv(settings, After(store, request).business)
    ensures Evolves(store.business, After(store, request).business)
  {
    OneRequest(store, request);
    var context: Context, cmd: Command, now: Time, e: EventId :|
      && request.slot.org == context.org
      && request.payload == cmd
      && request.operation == CommandOperation(settings, context, cmd, now, e);
    if Exec(settings, store.business, context, cmd, now, e).Ok? {
      ExecKeeps(settings, store.business, context, cmd, AttemptOf(store.business, context, cmd.c), now, e,
                Exec(settings, store.business, context, cmd, now, e).value);
    }
  }

  /** Clients may repeat and resend commands at will: the database invariant holds after any
      sequence of requests, and it is the state of each winning command run once. */
  lemma {:induction false} RequestsKeepInvariant(settings: Settings, store: Store<Db, Command, Response>,
                                                 requests: seq<Request<Db, Command, Response>>)
    requires DbInv(settings, store.business)
    requires forall i :: 0 <= i < |requests| ==> ServesCommand(settings, requests[i])
    ensures DbInv(settings, ServeAll(store, requests).business)
    ensures RunPlainly(store.business, Winners(store.business, store.records.Keys, requests))
         == Some(ServeAll(store, requests).business)
    decreases |requests|
  {
    RefinesPlain(store, requests);
    if |requests| > 0 {
      var front := requests[..|requests| - 1];
      RequestsKeepInvariant(settings, store, front);
      ServedKeeps(settings, ServeAll(store, front), requests[|requests| - 1]);
    }
  }
}
