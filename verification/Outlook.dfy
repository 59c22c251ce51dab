/** `allowed_actions` of `services/operator_queries.py`: what it offers, the services accept. */
module Outlook {
  import opened Domain
  import opened Tables
  import opened CaseStore
  import opened Refunds
  import opened Returns
  import opened Confirmation
  import opened Cells
  import opened Ledger
  import opened Settlement
  import opened Protocol
  import opened Safety
  import opened Guarantees
  import opened Exclusive
  import opened NoBlindRetry
  import opened Tenancy

  datatype Offer =
    | OfferAuthorize
    | OfferReject
    | OfferReceive
    | OfferInspect
    | OfferApproveRefund
    | OfferProviderReconcile
    | OfferRetryFailedRefund
    | OfferMarkReconciled
    | OfferClose

  /** Nobody has approved twice: the user is not among the approvers. */
  predicate NotAmong(approvals: seq<Approval>, user: Uuid) {
    forall a :: a in approvals ==> a.user != user
  }

  /** What the user is offered on a case with this attempt and these refund approvals. */
  predicate Offered(row: CaseRow, context: Context, attempt: Option<Attempt>, approvals: seq<Approval>, offer: Offer) {
    match offer
    case OfferAuthorize => row.status == Requested && context.role in {Admin, CustomerService}
    case OfferReject =>
      || (row.status == Requested && context.role in {Admin, CustomerService})
      || (row.status == Inspected && context.role in {Admin, CustomerService, Finance})
    case OfferReceive => row.status == Authorized && context.role in {Admin, Warehouse}
    case OfferInspect => row.status == Received && context.role in {Admin, Warehouse}
    case OfferApproveRefund =>
      row.status == Inspected && HasRole(context, {Finance}) && |approvals| < 2 && NotAmong(approvals, context.user)
    case OfferProviderReconcile =>
      Uncertain(row.status) && HasRole(context, {Finance}) && attempt.Some? && attempt.value.status == Unknown
    case OfferRetryFailedRefund =>
      Uncertain(row.status) && HasRole(context, {Finance}) && attempt.Some? && attempt.value.status == Failed
    case OfferMarkReconciled => row.status == Refunded && HasRole(context, {Finance})
    case OfferClose => row.status == Reconciled && HasRole(context, {Finance})
  }

  function CellOffers(cell: Cell, context: Context, offer: Offer): bool
    requires cell.row.Some?
  {
    Offered(cell.row.value, context, cell.attempt, cell.approvals, offer)
  }

  /** The command a user sends to take up an offer; a second approval repeats the first amount. */
  function CommandFor(c: CaseId, row: CaseRow, offer: Offer, amount: int): Command
    requires !offer.OfferProviderReconcile?
  {
    Command(c, row.version,
            match offer
            case OfferAuthorize => Authorize
            case OfferReject => Reject
            case OfferReceive => Receive
            case OfferInspect => Inspect
            case OfferApproveRefund => ApproveRefundOf(amount)
            case OfferRetryFailedRefund => RetryFailed
            case OfferMarkReconciled => MarkReconciled
            case OfferClose => Close)
  }

  /** The amounts a user may approve: any in range first, then exactly the first one. */
  predicate Approvable(row: CaseRow, approvals: seq<Approval>, amount: int) {
    AmountInRange(row, amount) && (approvals != [] ==> approvals[0].amount == Some(amount))
  }

  lemma {:induction false} RefundApprovalsComplete(approvals: seq<Approval>, c: CaseId, k: nat)
    requires k < |approvals| && IsRefundApproval(approvals[k], c)
    ensures approvals[k] in RefundApprovals(approvals, c)
  {
    if k < |approvals| - 1 {
      RefundApprovalsComplete(approvals[..|approvals| - 1], c, k);
    }
  }

  /** No earlier row of the same case, kind and user stands in the way of an insert. */
  predicate Unblocked(db: Db, a: Approval) {
    forall b :: b in db.approvals ==> !(b.caseId == a.caseId && b.kind == a.kind && b.user == a.user)
  }

  lemma EligibilityUnblocked(settings: Settings, db: Db, context: Context, c: CaseId)
    requires DbInv(settings, db) && c in db.cases && db.cases[c].status == Requested
    ensures Unblocked(db, EligibilityApproval(context, c))
  {
    forall b | b in db.approvals ensures !(b.caseId == c && b.kind == Eligibility) {
      var i :| 0 <= i < |db.approvals| && db.approvals[i] == b;
      assert ApprovalRowOk(CellOf(db, db.approvals[i].caseId), db.approvals[i]);
    }
  }

  lemma ApprovalUnblocked(settings: Settings, db: Db, context: Context, c: CaseId, kind: ApprovalKind, amount: int)
    requires DbInv(settings, db) && c in db.cases && db.cases[c].approved.None?
    requires kind == if RefundApprovals(db.approvals, c) == [] then RefundApproval else HighValueSecond
    ensures Unblocked(db, ApprovalBy(context, c, kind, amount))
  {
    forall b | b in db.approvals ensures !(b.caseId == c && b.kind == kind) {
      var i :| 0 <= i < |db.approvals| && db.approvals[i] == b;
      assert ApprovalRowOk(CellOf(db, db.approvals[i].caseId), db.approvals[i]);
      if b.caseId == c && b.kind == kind == RefundApproval {
        RefundApprovalsComplete(db.approvals, c, i);
      }
    }
  }

  lemma PlanAccepted(db: Db, context: Context, c: CaseId, amount: int, now: Time, e: EventId)
    requires c in db.cases && c !in db.attempts && e !in db.events
    requires db.cases[c].status == Inspected && HasRole(context, {Finance})
    ensures ApproveAndPlan(db, context, c, db.cases[c], db.cases[c].version, amount, now, e).Ok?
  {
  }

  lemma ApprovalAccepted(settings: Settings, db: Db, context: Context, c: CaseId, amount: int, now: Time, e: EventId)
    requires DbInv(settings, db) && Visible(db, context, c) && e !in db.events
    requires CellOffers(CellOf(db, c), context, OfferApproveRefund)
    requires Approvable(db.cases[c], RefundApprovals(db.approvals, c), amount)
    ensures ApproveRefund(settings, db, context, c, db.cases[c].version, amount, db.cases[c],
                          RefundApprovals(db.approvals, c), now, e).Ok?
  {
    var approvals := RefundApprovals(db.approvals, c);
    assert CellOk(settings, c, CellOf(db, c));
    var kind := if approvals == [] then RefundApproval else HighValueSecond;
    ApprovalUnblocked(settings, db, context, c, kind, amount);
    FirstAccepted(db, context, c, amount);
    FurtherAccepted(db, context, c, kind, amount, now, e);
    ChecksPass(settings, db.cases[c], context, approvals, amount);
    ApproveCases(settings, db, context, c, db.cases[c].version, amount, db.cases[c], approvals, now, e);
  }

  lemma FirstAccepted(db: Db, context: Context, c: CaseId, amount: int)
    requires c in db.cases
    ensures Unblocked(db, ApprovalBy(context, c, RefundApproval, amount)) ==>
              RecordFirstApproval(db, context, c, db.cases[c], amount).Ok?
  {
  }

  lemma FurtherAccepted(db: Db, context: Context, c: CaseId, kind: ApprovalKind, amount: int, now: Time, e: EventId)
    requires c in db.cases && c !in db.attempts && e !in db.events
    requires db.cases[c].status == Inspected && HasRole(context, {Finance})
    requires Unblocked(db, ApprovalBy(context, c, kind, amount))
    ensures InsertAndPlan(db, context, c, db.cases[c], db.cases[c].version, amount, kind, now, e).Ok?
  {
    PlanAccepted(InsertApproval(db, ApprovalBy(context, c, kind, amount)).value, context, c, amount, now, e);
  }

  /** An approval that is offered passes every check; what is left to decide is its kind. */
  lemma ChecksPass(settings: Settings, row: CaseRow, context: Context, approvals: seq<Approval>, amount: int)
    requires ApprovalsOk(settings, row, approvals) && row.status == Inspected
    requires HasRole(context, {Finance}) && NotAmong(approvals, context.user) && Approvable(row, approvals, amount)
    ensures ApproveChecks(settings, context, row.version, amount, row, approvals)
         == Ok(if approvals != [] then Some(HighValueSecond)
               else if amount >= settings.highValueThreshold then None else Some(RefundApproval))
  {
    if approvals != [] {
      assert approvals[0] in approvals;
    }
  }

  lemma PlainAccepted(settings: Settings, db: Db, context: Context, c: CaseId, offer: Offer, seen: Option<Attempt>,
                      now: Time, e: EventId)
    requires Visible(db, context, c)
    requires CellOffers(CellOf(db, c), context, offer)
    requires offer !in {OfferAuthorize, OfferApproveRefund, OfferProviderReconcile, OfferRetryFailedRefund}
    ensures CommitPlain(db, context, CommandFor(c, db.cases[c], offer, 0), db.cases[c], seen, now, e).Ok?
  {
  }

  lemma AuthorizeAccepted(settings: Settings, db: Db, context: Context, c: CaseId)
    requires DbInv(settings, db) && Visible(db, context, c)
    requires CellOffers(CellOf(db, c), context, OfferAuthorize)
    ensures AuthorizeCase(db, context, c, db.cases[c].version, db.cases[c]).Ok?
  {
    EligibilityUnblocked(settings, db, context, c);
  }

  /** Retry is offered in both uncertain statuses but served in one. */
  lemma RetryAccepted(settings: Settings, db: Db, context: Context, c: CaseId, now: Time, e: EventId)
    requires CellOk(settings, c, CellOf(db, c)) && Visible(db, context, c) && e !in db.events
    requires CellOffers(CellOf(db, c), context, OfferRetryFailedRefund)
    ensures RetryFailedRefund(db, context, c, db.cases[c].version, db.cases[c], AttemptOf(db, context, c), now, e).Ok?
        <==> !MissedByRetry(db, c, OfferRetryFailedRefund)
  {
  }

  /** The offer is to retry the refund of a case that is still unknown. */
  predicate MissedByRetry(db: Db, c: CaseId, offer: Offer)
    requires c in db.cases
  {
    offer.OfferRetryFailedRefund? && db.cases[c].status == RefundUnknown
  }

  /** A lookup of an uncertain case may start, and whatever the provider answers it can be committed. */
  lemma LookupAccepted(settings: Settings, w: World, context: Context, c: CaseId)
    requires Inv(settings, w) && Visible(w.db, context, c)
    requires Uncertain(w.db.cases[c].status) && HasRole(context, {Finance})
    ensures MayReconcile(w.db, context, c)
    ensures Reconcile(w.db, c, w.db.cases[c], w.db.attempts[c], Answer(w.refunds, w.db.attempts[c].key)).Ok?
  {
    assert CellOk(settings, c, CellOf(w.db, c));
    if RefundV1(c) in w.refunds {
      RowOfAttempt(w, c, w.refunds[RefundV1(c)]);
    }
    LookupResolves(settings, w.db, c, Answer(w.refunds, w.db.attempts[c].key));
  }

  lemma LookupResolves(settings: Settings, db: Db, c: CaseId, observed: Observation)
    requires CellOk(settings, c, CellOf(db, c)) && c in db.cases && Uncertain(db.cases[c].status)
    requires !observed.NotAsked? && (observed.Found? ==> RowMatches(observed.row, db.attempts[c]))
    ensures Reconcile(db, c, db.cases[c], db.attempts[c], observed).Ok?
  {
  }

  /** The service behind an offer accepts it at the current version of the case. */
  predicate Accepted(settings: Settings, w: World, context: Context, c: CaseId, offer: Offer, amount: int, e: EventId)
    requires c in w.db.cases
  {
    if offer.OfferProviderReconcile? then
      && MayReconcile(w.db, context, c)
      && Reconcile(w.db, c, w.db.cases[c], w.db.attempts[c], Answer(w.refunds, w.db.attempts[c].key)).Ok?
    else
      Exec(settings, w.db, context, CommandFor(c, w.db.cases[c], offer, amount), w.now, e).Ok?
  }

  lemma PlainOfferAccepted(settings: Settings, db: Db, context: Context, c: CaseId, offer: Offer, now: Time, e: EventId)
    requires DbInv(settings, db) && Visible(db, context, c) && e !in db.events
    requires CellOffers(CellOf(db, c), context, offer)
    requires !offer.OfferApproveRefund? && !offer.OfferProviderReconcile?
    ensures CommitPlain(db, context, CommandFor(c, db.cases[c], offer, 0), db.cases[c], AttemptOf(db, context, c),
                        now, e).Ok?
        <==> !MissedByRetry(db, c, offer)
  {
    assert CellOk(settings, c, CellOf(db, c));
    match offer
    case OfferAuthorize => AuthorizeAccepted(settings, db, context, c);
    case OfferRetryFailedRefund => RetryAccepted(settings, db, context, c, now, e);
    case _ => PlainAccepted(settings, db, context, c, offer, AttemptOf(db, context, c), now, e);
  }

  lemma OfferPassesGate(row: CaseRow, context: Context, attempt: Option<Attempt>, approvals: seq<Approval>,
                        c: CaseId, offer: Offer, amount: int)
    requires Offered(row, context, attempt, approvals, offer) && !offer.OfferProviderReconcile?
    ensures GatePasses(context, CommandFor(c, row, offer, amount).op)
  {
  }

  lemma ExecOfCommit(settings: Settings, db: Db, context: Context, cmd: Command, now: Time, e: EventId)
    requires GatePasses(context, cmd.op) && Visible(db, context, cmd.c)
    ensures Exec(settings, db, context, cmd, now, e).Ok?
        <==> if cmd.op.ApproveRefundOf?
             then ApproveRefund(settings, db, context, cmd.c, cmd.expected, cmd.op.amount, db.cases[cmd.c],
                                RefundApprovals(db.approvals, cmd.c), now, e).Ok?
             else CommitPlain(db, context, cmd, db.cases[cmd.c], AttemptOf(db, context, cmd.c), now, e).Ok?
  {
  }

  lemma CommandAccepted(settings: Settings, db: Db, context: Context, c: CaseId, offer: Offer, amount: int,
                        now: Time, e: EventId)
    requires DbInv(settings, db) && Visible(db, context, c) && e !in db.events
    requires CellOffers(CellOf(db, c), context, offer) && !offer.OfferProviderReconcile?
    requires offer.OfferApproveRefund? ==> Approvable(db.cases[c], RefundApprovals(db.approvals, c), amount)
    ensures Exec(settings, db, context, CommandFor(c, db.cases[c], offer, amount), now, e).Ok?
        <==> !MissedByRetry(db, c, offer)
  {
    var cell, cmd := CellOf(db, c), CommandFor(c, db.cases[c], offer, amount);
    OfferPassesGate(db.cases[c], context, cell.attempt, cell.approvals, c, offer, amount);
    ExecOfCommit(settings, db, context, cmd, now, e);
    if offer.OfferApproveRefund? {
      ApprovalAccepted(settings, db, context, c, amount, now, e);
    } else {
      PlainOfferAccepted(settings, db, context, c, offer, now, e);
    }
  }

  lemma OfferAccepted(settings: Settings, w: World, context: Context, c: CaseId, offer: Offer, amount: int, e: EventId)
    requires Inv(settings, w) && Visible(w.db, context, c) && e !in w.db.events
    requires CellOffers(CellOf(w.db, c), context, offer)
    requires offer.OfferApproveRefund? ==> Approvable(w.db.cases[c], RefundApprovals(w.db.approvals, c), amount)
    ensures Accepted(settings, w, context, c, offer, amount, e) <==> !MissedByRetry(w.db, c, offer)
  {
    if offer.OfferProviderReconcile? {
      LookupAccepted(settings, w, context, c);
    } else {
      CommandAccepted(settings, w.db, context, c, offer, amount, w.now, e);
    }
  }

  /** Every action offered in a reachable world is accepted at the current version, except exactly one:
      a retry is also listed for an unknown case with a failed attempt, and refused there. */
  lemma OfferedActionsAreAccepted(config: Config, run: Run, i: nat, context: Context, c: CaseId, offer: Offer,
                                  amount: int, e: EventId)
    requires IsRun(config, run) && i < |run.worlds|
    requires Visible(run.worlds[i].db, context, c) && e !in run.worlds[i].db.events
    requires CellOffers(CellOf(run.worlds[i].db, c), context, offer)
    requires offer.OfferApproveRefund? ==>
               Approvable(run.worlds[i].db.cases[c], RefundApprovals(run.worlds[i].db.approvals, c), amount)
    ensures Accepted(config.settings, run.worlds[i], context, c, offer, amount, e)
        <==> !(offer.OfferRetryFailedRefund? && run.worlds[i].db.cases[c].status == RefundUnknown)
  {
    RunKeepsInv(config, run, i);
    OfferAccepted(config.settings, run.worlds[i], context, c, offer, amount, e);
  }

  /** A lookup is offered exactly when it may start and the provider's answer that there is no refund would
      settle the attempt: it would be failed, and the operator told that absence is confirmed. Of a failed
      attempt a lookup may start too, but an absence would tell nothing new. */
  lemma LookupOfferedExactly(config: Config, run: Run, i: nat, context: Context, c: CaseId)
    requires IsRun(config, run) && i < |run.worlds| && Visible(run.worlds[i].db, context, c)
    ensures var db := run.worlds[i].db;
            CellOffers(CellOf(db, c), context, OfferProviderReconcile)
            <==> && context.role in {Finance, Admin} && db.cases[c].status in {RefundUnknown, NeedsReconciliation}
                 && MayReconcile(db, context, c)
                 && var r := Reconcile(db, c, db.cases[c], db.attempts[c], Absent);
                    r.Ok? && r.value.1 == ConfirmedAbsent && r.value.0.attempts[c].status == AttemptStatus.Failed
  {
    RunKeepsInv(config, run, i);
    LookupOfferedIn(config.settings, run.worlds[i].db, context, c);
  }

  lemma LookupOfferedIn(settings: Settings, db: Db, context: Context, c: CaseId)
    requires DbInv(settings, db) && Visible(db, context, c)
    ensures CellOffers(CellOf(db, c), context, OfferProviderReconcile)
            <==> && context.role in {Finance, Admin} && db.cases[c].status in {RefundUnknown, NeedsReconciliation}
                 && MayReconcile(db, context, c)
                 && var r := Reconcile(db, c, db.cases[c], db.attempts[c], Absent);
                    r.Ok? && r.value.1 == ConfirmedAbsent && r.value.0.attempts[c].status == AttemptStatus.Failed
  {
    assert CellOk(settings, c, CellOf(db, c));
    if Uncertain(db.cases[c].status) {
      LookupResolves(settings, db, c, Absent);
    }
  }

  /** The user is offered the action, and it is accepted. */
  ghost predicate OpenTo(settings: Settings, w: World, context: Context, c: CaseId, offer: Offer)
    requires c in w.db.cases
  {
    && context.org == w.db.cases[c].org
    && CellOffers(CellOf(w.db, c), context, offer)
    && forall e :: e !in w.db.events ==> Accepted(settings, w, context, c, offer, 0, e)
  }

  lemma OpenToAdmin(settings: Settings, w: World, c: CaseId, offer: Offer)
    requires Inv(settings, w) && c in w.db.cases && !offer.OfferApproveRefund?
    requires CellOffers(CellOf(w.db, c), Context(w.db.cases[c].org, 0, Admin), offer)
    requires !MissedByRetry(w.db, c, offer)
    ensures OpenTo(settings, w, Context(w.db.cases[c].org, 0, Admin), c, offer)
  {
    forall e | e !in w.db.events
      ensures Accepted(settings, w, Context(w.db.cases[c].org, 0, Admin), c, offer, 0, e)
    {
      OfferAccepted(settings, w, Context(w.db.cases[c].org, 0, Admin), c, offer, 0, e);
    }
  }

  /** What somebody may do next about a case in this status. */
  function NextOffer(cell: Cell): Offer
    requires cell.row.Some?
  {
    match cell.row.value.status
    case Requested => OfferAuthorize
    case Authorized => OfferReceive
    case Received => OfferInspect
    case Inspected => OfferReject
    case NeedsReconciliation => OfferRetryFailedRefund
    case Refunded => OfferMarkReconciled
    case Reconciled => OfferClose
    case _ => OfferProviderReconcile
  }

  /** No case is forgotten: until it is closed or rejected, somebody of its organization is offered an
      action that is accepted, or the worker still has an event to dispatch, or the case is unknown with
      a failed attempt, where nothing that is offered helps but a lookup by finance is accepted. */
  lemma NoCaseIsForgotten(config: Config, run: Run, i: nat, c: CaseId)
    requires config.exclusive && IsRun(config, run) && i < |run.worlds|
    requires c in run.worlds[i].db.cases && !Terminal(run.worlds[i].db.cases[c].status)
    ensures var w := run.worlds[i];
            || HasLiveEvent(w.db.events, c)
            || (exists context: Context, offer: Offer :: OpenTo(config.settings, w, context, c, offer))
            || (&& CaseIs(CellOf(w.db, c), RefundUnknown) && AttemptIs(CellOf(w.db, c), AttemptStatus.Failed)
                && forall context: Context :: context.org == w.db.cases[c].org && HasRole(context, {Finance}) ==>
                     Accepted(config.settings, w, context, c, OfferProviderReconcile, 0, 0))
  {
    RunKeepsInv(config, run, i);
    RunKeepsExcl(config, run, i);
    var w := run.worlds[i];
    var cell := CellOf(w.db, c);
    assert CellOk(config.settings, c, cell) && UncertainOk(cell);
    if cell.row.value.status == RefundPending {
      assert IsPending(cell);
    } else if CaseIs(cell, RefundUnknown) && AttemptIs(cell, AttemptStatus.Failed) {
      forall context: Context | context.org == w.db.cases[c].org && HasRole(context, {Finance})
        ensures Accepted(config.settings, w, context, c, OfferProviderReconcile, 0, 0)
      {
        LookupAccepted(config.settings, w, context, c);
      }
    } else {
      OpenToAdmin(config.settings, w, c, NextOffer(cell));
    }
  }
}
