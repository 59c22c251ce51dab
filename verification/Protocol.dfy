/** The whole refund protocol as a state machine: the committed database, the provider, the
    requests on the network, the workers, and the transactions still running on what they read. */
module Protocol {
  import opened Domain
  import opened Tables
  import opened CaseStore
  import opened Outbox
  import opened Returns
  import opened Provider
  import opened Confirmation
  import opened Worker

  /** What has become of one `POST /refunds`. */
  datatype Phase = Sent | Answered(reply: ProviderRow) | Refused | Lost

  datatype Call = Call(request: RefundRequest, phase: Phase)

  /** A worker holding event `e`: it has claimed it, or waits for the reply to a call. */
  datatype Stage = ClaimHeld | Waiting(call: nat)
  datatype Session = Session(e: EventId, stage: Stage)

  /** A human command between its reads and its commit: the case, then for an approval the approvals
      and for a retry the attempt. */
  datatype Txn = Txn(context: Context, cmd: Command, snap: CaseRow, approvals: Option<seq<Approval>>,
                     seen: Option<Attempt>)

  /** A provider lookup between its reads and its commit: the case, the attempt, the provider's answer. */
  datatype Lookup = Lookup(context: Context, c: CaseId, snap: CaseRow, seen: Option<Attempt>, observed: Observation)

  datatype World = World(
    db: Db,
    refunds: ProviderTable,
    calls: seq<Call>,
    sessions: map<nat, Session>,
    txns: map<nat, Txn>,
    lookups: map<nat, Lookup>,
    now: Time)

  /** With `exclusive`, a lease is taken over only after its holder has stopped. */
  datatype Config = Config(settings: Settings, exclusive: bool)

  datatype Outcome = Replied | RepliedRefused | TimedOut

  datatype Step =
    | Tick(to: Time)
    | Create(context: Context, c: CaseId, requested: int, currency: string)
    | TxnRead(t: nat, context: Context, cmd: Command)
    | TxnReadApprovals(t: nat)
    | TxnReadAttempt(t: nat)
    | TxnCommit(t: nat, newEvent: EventId)
    | TxnAbort(t: nat)
    | LookupReadCase(l: nat, context: Context, c: CaseId)
    | LookupReadAttempt(l: nat)
    | LookupAsk(l: nat)
    | LookupCommit(l: nat)
    | LookupAbort(l: nat)
    | Webhook(key: ProviderKey, eventId: string)
    | Claim(s: nat, e: EventId)
    | Begin(s: nat)
    | ProviderStores(call: nat, freshId: string)
    | ProviderRefuses(call: nat)
    | RequestLost(call: nat)
    | Settle(s: nat, outcome: Outcome)
    | Crash(s: nat)

  const INITIAL := World(EMPTY_DB, map[], [], map[], map[], map[], 0)

  predicate Holds(w: World, e: EventId, s: nat) {
    s in w.sessions && w.sessions[s].e == e
  }

  function StepCreate(w: World, context: Context, c: CaseId, requested: int, currency: string): Option<World> {
    match CreateCase(w.db, context, c, requested, currency)
    case Ok(db) => Some(w.(db := db))
    case Err(_) => None
  }

  function StepTxnRead(w: World, t: nat, context: Context, cmd: Command): Option<World> {
    if t !in w.txns && GatePasses(context, cmd.op) && Visible(w.db, context, cmd.c)
    then Some(w.(txns := w.txns[t := Txn(context, cmd, w.db.cases[cmd.c], None, None)]))
    else None
  }

  function StepTxnReadApprovals(w: World, t: nat): Option<World> {
    if t in w.txns && w.txns[t].cmd.op.ApproveRefundOf? && w.txns[t].approvals.None?
    then Some(w.(txns := w.txns[t := w.txns[t].(
                approvals := Some(RefundApprovals(w.db.approvals, w.txns[t].cmd.c)))]))
    else None
  }

  function StepTxnReadAttempt(w: World, t: nat): Option<World> {
    if t in w.txns && w.txns[t].cmd.op.RetryFailed? && w.txns[t].seen.None?
       && AttemptOf(w.db, w.txns[t].context, w.txns[t].cmd.c).Some?
    then Some(w.(txns := w.txns[t := w.txns[t].(
                seen := AttemptOf(w.db, w.txns[t].context, w.txns[t].cmd.c))]))
    else None
  }

  function CommitOf(settings: Settings, db: Db, txn: Txn, now: Time, newEvent: EventId): Result<(Db, bool)> {
    Commit(settings, db, txn.context, txn.cmd, txn.snap,
           if txn.approvals.Some? then txn.approvals.value else [], txn.seen, now, newEvent)
  }

  predicate ReadyToCommit(txn: Txn) {
    && (txn.cmd.op.ApproveRefundOf? ==> txn.approvals.Some?)
    && (txn.cmd.op.RetryFailed? ==> txn.seen.Some?)
  }

  function StepTxnCommit(settings: Settings, w: World, t: nat, newEvent: EventId): Option<World> {
    if t in w.txns && ReadyToCommit(w.txns[t]) then
      match CommitOf(settings, w.db, w.txns[t], w.now, newEvent)
      case Ok(r) => Some(w.(db := r.0, txns := w.txns - {t}))
      case Err(_) => None
    else None
  }

  function StepLookupReadCase(w: World, l: nat, context: Context, c: CaseId): Option<World> {
    if l !in w.lookups && ReadUncertainCase(w.db, context, c).Ok?
    then Some(w.(lookups := w.lookups[l := Lookup(context, c, w.db.cases[c], None, NotAsked)]))
    else None
  }

  function StepLookupReadAttempt(w: World, l: nat): Option<World> {
    if l in w.lookups && w.lookups[l].seen.None? && ReadItsAttempt(w.db, w.lookups[l].context, w.lookups[l].c).Ok?
    then Some(w.(lookups := w.lookups[l := w.lookups[l].(
                seen := AttemptOf(w.db, w.lookups[l].context, w.lookups[l].c))]))
    else None
  }

  function Answer(refunds: ProviderTable, key: ProviderKey): Observation {
    if key in refunds then Found(refunds[key]) else Absent
  }

  function StepLookupAsk(w: World, l: nat): Option<World> {
    if l in w.lookups && w.lookups[l].seen.Some? && w.lookups[l].observed.NotAsked?
    then Some(w.(lookups := w.lookups[l := w.lookups[l].(
                observed := Answer(w.refunds, w.lookups[l].seen.value.key))]))
    else None
  }

  function StepLookupCommit(w: World, l: nat): Option<World> {
    if l in w.lookups && w.lookups[l].seen.Some? && !w.lookups[l].observed.NotAsked?
       && w.lookups[l].c in w.db.attempts then
      var k := w.lookups[l];
      match Reconcile(w.db, k.c, k.snap, k.seen.value, k.observed)
      case Ok(r) => Some(w.(db := r.0, lookups := w.lookups - {l}))
      case Err(_) => None
    else None
  }

  ghost function StepWebhook(w: World, key: ProviderKey, eventId: string): Option<World> {
    if key in w.refunds then
      match ProcessWebhook(w.db, PayloadOf(w.refunds[key], key, eventId))
      case Ok(r) => Some(w.(db := r.0))
      case Err(_) => None
    else None
  }

  ghost predicate MayClaim(config: Config, w: World, e: EventId) {
    && e in w.db.events
    && Eligible(w.db.events[e], w.now)
    && (config.exclusive ==> forall s :: !Holds(w, e, s))
  }

  ghost function StepClaim(config: Config, w: World, s: nat, e: EventId): Option<World> {
    if s !in w.sessions && MayClaim(config, w, e)
    then Some(w.(db := WithEvent(w.db, e, Claimed(w.db.events[e], w.now, config.settings.leaseSeconds)),
                 sessions := w.sessions[s := Session(e, ClaimHeld)]))
    else None
  }

  function RequestFor(db: Db, c: CaseId): RefundRequest
    requires c in db.attempts
  {
    RefundRequest(db.attempts[c].key, db.attempts[c].amount, db.attempts[c].currency, c)
  }

  function StepBegin(w: World, s: nat): Option<World> {
    if s in w.sessions && w.sessions[s].stage.ClaimHeld? && w.sessions[s].e in w.db.events then
      var e := w.sessions[s].e;
      if w.db.events[e].status != Processing then Some(w.(sessions := w.sessions - {s}))
      else
        match BeginDispatch(w.db, e)
        case Err(_) => None
        case Ok(r) =>
          if !r.1 then Some(w.(db := r.0, sessions := w.sessions - {s}))
          else if w.db.events[e].caseId !in w.db.attempts then None
          else Some(w.(db := r.0,
                       calls := w.calls + [Call(RequestFor(w.db, w.db.events[e].caseId), Sent)],
                       sessions := w.sessions[s := Session(e, Waiting(|w.calls|))]))
    else None
  }

  ghost function StepProviderStores(w: World, i: nat, freshId: string): Option<World> {
    if i < |w.calls| && w.calls[i].phase.Sent? && FreshRefundId(w.refunds, freshId) then
      var request := w.calls[i].request;
      var refunds := Stored(w.refunds, request, freshId);
      Some(w.(refunds := refunds, calls := w.calls[i := Call(request, Answered(refunds[request.key]))]))
    else None
  }

  function StepCallEnds(w: World, i: nat, phase: Phase): Option<World> {
    if i < |w.calls| && w.calls[i].phase.Sent?
    then Some(w.(calls := w.calls[i := w.calls[i].(phase := phase)]))
    else None
  }

  /** Session `s` waits for a call about an event whose attempt exists. */
  predicate WaitsOn(w: World, s: nat) {
    && s in w.sessions
    && w.sessions[s].stage.Waiting?
    && w.sessions[s].stage.call < |w.calls|
    && w.sessions[s].e in w.db.events
    && w.db.events[w.sessions[s].e].caseId in w.db.attempts
  }

  /** The reply a worker acts on is one the provider has given to its own call. */
  function Settled(settings: Settings, w: World, s: nat, outcome: Outcome): Result<Db>
    requires WaitsOn(w, s)
  {
    var e := w.sessions[s].e;
    var phase := w.calls[w.sessions[s].stage.call].phase;
    match outcome
    case TimedOut => SettleTimeout(w.db, e)
    case RepliedRefused =>
      if phase.Refused? then SettleRefused(settings, w.db, e, w.now) else Err(RuntimeFailure)
    case Replied =>
      if phase.Answered? then SettleReply(w.db, e, phase.reply) else Err(RuntimeFailure)
  }

  function StepSettle(settings: Settings, w: World, s: nat, outcome: Outcome): Option<World> {
    if WaitsOn(w, s) then
      match Settled(settings, w, s, outcome)
      case Ok(db) => Some(w.(db := db, sessions := w.sessions - {s}))
      case Err(_) => None
    else None
  }

  /** The world after one step, or `None` when the step cannot be taken. */
  ghost function Next(config: Config, w: World, step: Step): Option<World> {
    match step
    case Tick(to) => if w.now <= to then Some(w.(now := to)) else None
    case Create(context, c, requested, currency) => StepCreate(w, context, c, requested, currency)
    case TxnRead(t, context, cmd) => StepTxnRead(w, t, context, cmd)
    case TxnReadApprovals(t) => StepTxnReadApprovals(w, t)
    case TxnReadAttempt(t) => StepTxnReadAttempt(w, t)
    case TxnCommit(t, newEvent) => StepTxnCommit(config.settings, w, t, newEvent)
    case TxnAbort(t) => if t in w.txns then Some(w.(txns := w.txns - {t})) else None
    case LookupReadCase(l, context, c) => StepLookupReadCase(w, l, context, c)
    case LookupReadAttempt(l) => StepLookupReadAttempt(w, l)
    case LookupAsk(l) => StepLookupAsk(w, l)
    case LookupCommit(l) => StepLookupCommit(w, l)
    case LookupAbort(l) => if l in w.lookups then Some(w.(lookups := w.lookups - {l})) else None
    case Webhook(key, eventId) => StepWebhook(w, key, eventId)
    case Claim(s, e) => StepClaim(config, w, s, e)
    case Begin(s) => StepBegin(w, s)
    case ProviderStores(i, freshId) => StepProviderStores(w, i, freshId)
    case ProviderRefuses(i) => StepCallEnds(w, i, Refused)
    case RequestLost(i) => StepCallEnds(w, i, Lost)
    case Settle(s, outcome) => StepSettle(config.settings, w, s, outcome)
    case Crash(s) => if s in w.sessions then Some(w.(sessions := w.sessions - {s})) else None
  }

  /* What `Next` is for one kind of step. */

  lemma NextClaims(config: Config, w: World, s: nat, e: EventId, w': World)
    requires Next(config, w, Claim(s, e)) == Some(w')
    ensures StepClaim(config, w, s, e) == Some(w')
  {
  }

  lemma NextBegins(config: Config, w: World, s: nat, w': World)
    requires Next(config, w, Begin(s)) == Some(w')
    ensures StepBegin(w, s) == Some(w')
  {
  }

  lemma NextSettles(config: Config, w: World, s: nat, outcome: Outcome, w': World)
    requires Next(config, w, Settle(s, outcome)) == Some(w')
    ensures StepSettle(config.settings, w, s, outcome) == Some(w')
  {
  }

  lemma NextCreates(config: Config, w: World, context: Context, c: CaseId, requested: int, currency: string, w': World)
    requires Next(config, w, Create(context, c, requested, currency)) == Some(w')
    ensures StepCreate(w, context, c, requested, currency) == Some(w')
  {
  }

  lemma NextCommits(config: Config, w: World, t: nat, newEvent: EventId, w': World)
    requires Next(config, w, TxnCommit(t, newEvent)) == Some(w')
    ensures StepTxnCommit(config.settings, w, t, newEvent) == Some(w')
  {
  }

  lemma NextReconciles(config: Config, w: World, l: nat, w': World)
    requires Next(config, w, LookupCommit(l)) == Some(w')
    ensures StepLookupCommit(w, l) == Some(w')
  {
  }

  lemma NextDelivers(config: Config, w: World, key: ProviderKey, eventId: string, w': World)
    requires Next(config, w, Webhook(key, eventId)) == Some(w')
    ensures StepWebhook(w, key, eventId) == Some(w')
  {
  }

  /** A run: every world follows from the one before by one step. */
  datatype Run = Run(worlds: seq<World>, steps: seq<Step>)

  /** Step `i` of the run is taken as the protocol says. */
  ghost predicate Taken(config: Config, run: Run, i: nat)
    requires i < |run.steps| < |run.worlds|
  {
    Next(config, run.worlds[i], run.steps[i]) == Some(run.worlds[i + 1])
  }

  ghost predicate IsRun(config: Config, run: Run) {
    && |run.worlds| == |run.steps| + 1
    && run.worlds[0] == INITIAL
    && forall i {:trigger Taken(config, run, i)} :: 0 <= i < |run.steps| ==> Taken(config, run, i)
  }
}
