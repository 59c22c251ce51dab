/** `allowed_actions` of `services/operator_queries.py` in its own form. */
module OperatorQueries {
  import opened Domain
  import opened Tables
  import opened Outlook

  /** The list holds exactly what the user is offered, each action once. */
  method AllowedActions(c: CaseId, row: CaseRow, context: Context, attempt: Option<Attempt>, approvals: seq<Approval>)
    returns (actions: seq<Offer>)
    ensures forall offer :: offer in actions <==> Offered(row, context, attempt, RefundApprovals(approvals, c), offer)
    ensures forall i, j :: 0 <= i < j < |actions| ==> actions[i] != actions[j]
  {
    var role := context.role;
    var isAdmin := role == Admin;
    actions := [];
    if row.status == Requested && (isAdmin || role == CustomerService) {
      actions := actions + [OfferAuthorize, OfferReject];
    } else if row.status == Authorized && (isAdmin || role == Warehouse) {
      actions := actions + [OfferReceive];
    } else if row.status == Received && (isAdmin || role == Warehouse) {
      actions := actions + [OfferInspect];
    } else if row.status == Inspected {
      var refundApprovals := RefundApprovals(approvals, c);
      var distinctApprover := forall a :: a in refundApprovals ==> a.user != context.user;
      if (isAdmin || role == Finance) && |refundApprovals| < 2 && distinctApprover {
        actions := actions + [OfferApproveRefund];
      }
      if isAdmin || role in {CustomerService, Finance} {
        actions := actions + [OfferReject];
      }
    } else if row.status in {RefundUnknown, NeedsReconciliation} {
      if isAdmin || role == Finance {
        if attempt.Some? && attempt.value.status == Unknown {
          actions := actions + [OfferProviderReconcile];
        }
        if attempt.Some? && attempt.value.status == Failed {
          actions := actions + [OfferRetryFailedRefund];
        }
      }
    } else if row.status == Refunded && (isAdmin || role == Finance) {
      actions := actions + [OfferMarkReconciled];
    } else if row.status == Reconciled && (isAdmin || role == Finance) {
      actions := actions + [OfferClose];
    }
  }
}
