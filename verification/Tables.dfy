/** The rows of `models.py` and the queries the services run over them. */
module Tables {
  import opened Domain

  /** Instants are microseconds, the resolution of the timestamps in use. */
  type Time = int
  const SECOND: Time := 1_000_000

  type CaseId = Uuid
  type EventId = Uuid

  /** `f"return:{case.id}:refund:v1"`, or any other text a webhook may carry. */
  datatype ProviderKey = RefundV1(caseId: CaseId) | OtherKey(text: string)

  datatype CaseRow = CaseRow(
    org: Uuid,
    requested: int,
    approved: Option<int>,
    currency: string,
    status: ReturnStatus,
    version: int)

  datatype Approval = Approval(
    org: Uuid,
    caseId: CaseId,
    kind: ApprovalKind,
    decision: ApprovalDecision,
    user: Uuid,
    amount: Option<int>)

  datatype Evidence =
    | ProviderEvidence(eventId: string, refundId: string, amount: Option<int>, currency: Option<string>)
    | LookupNotFound

  datatype Attempt = Attempt(
    org: Uuid,
    key: ProviderKey,
    amount: int,
    currency: string,
    status: AttemptStatus,
    providerRef: Option<string>,
    dispatchCount: nat,
    evidence: Option<Evidence>)

  datatype Topic = RefundDispatch | OtherTopic(text: string)

  datatype EventStatus = Pending | Processing | Done | Dead

  datatype Event = Event(
    org: Uuid,
    topic: Topic,
    caseId: CaseId,
    status: EventStatus,
    attempts: nat,
    availableAt: Time,
    leaseUntil: Option<Time>,
    createdAt: Time)

  datatype PaymentStatus = PaymentSucceeded | PaymentOther(text: string)

  datatype Payload = Payload(
    eventId: string,
    refundId: string,
    key: ProviderKey,
    status: PaymentStatus,
    amount: Option<int>,
    currency: Option<string>)

  datatype Resource = CaseResource(caseId: CaseId) | AttemptResource(attemptOf: CaseId)

  datatype Action =
    | ReturnCreated
    | ReturnAuthorized
    | ReturnReceived
    | ReturnInspected
    | ReturnRejected
    | ReturnReconciled
    | ReturnClosed
    | FirstApprovalRecorded
    | RefundApprovedByFinance
    | RefundPlanned
    | RetryAuthorized
    | SystemReturn(target: ReturnStatus)
    | DispatchRecovered
    | DispatchKnownFailure
    | OutcomeUnknown
    | ProviderConfirmed
    | ManualReconciliationRequired

  datatype AuditRow = AuditRow(
    org: Uuid,
    actor: Option<Uuid>,
    action: Action,
    resource: Resource,
    before: Option<CaseRow>,
    after: Option<CaseRow>)

  /** The committed database. An attempt is identified by its case: `return_case_id` is unique
      in `refund_attempt`. Approvals and audit rows are kept in insertion order. */
  datatype Db = Db(
    cases: map<CaseId, CaseRow>,
    approvals: seq<Approval>,
    attempts: map<CaseId, Attempt>,
    events: map<EventId, Event>,
    receipts: map<string, Payload>,
    audit: seq<AuditRow>)

  const EMPTY_DB := Db(map[], [], map[], map[], map[], [])

  predicate IsRefundApproval(a: Approval, c: CaseId) {
    a.caseId == c && a.kind in {RefundApproval, HighValueSecond} && a.decision == Approved
  }

  /** `_refund_approvals`: the refund approvals of a case, oldest first. */
  function RefundApprovals(approvals: seq<Approval>, c: CaseId): seq<Approval> {
    if approvals == [] then []
    else
      var earlier := RefundApprovals(approvals[..|approvals| - 1], c);
      var last := approvals[|approvals| - 1];
      if IsRefundApproval(last, c) then earlier + [last] else earlier
  }

  lemma RefundApprovalsAppend(approvals: seq<Approval>, a: Approval, c: CaseId)
    ensures RefundApprovals(approvals + [a], c)
         == RefundApprovals(approvals, c) + (if IsRefundApproval(a, c) then [a] else [])
  {
    assert (approvals + [a])[..|approvals|] == approvals;
  }

  /** The audit rows of one case, oldest first. */
  function CaseAudit(audit: seq<AuditRow>, c: CaseId): seq<AuditRow> {
    if audit == [] then []
    else
      var earlier := CaseAudit(audit[..|audit| - 1], c);
      var last := audit[|audit| - 1];
      if last.resource == CaseResource(c) then earlier + [last] else earlier
  }

  lemma CaseAuditAppend(audit: seq<AuditRow>, row: AuditRow, c: CaseId)
    ensures CaseAudit(audit + [row], c)
         == CaseAudit(audit, c) + (if row.resource == CaseResource(c) then [row] else [])
  {
    assert (audit + [row])[..|audit|] == audit;
  }

  predicate LiveStatus(status: EventStatus) {
    status == Pending || status == Processing
  }

  /** Event `e` still has to be worked on for case `c`. */
  predicate LiveEvent(events: map<EventId, Event>, e: EventId, c: CaseId) {
    e in events && events[e].caseId == c && LiveStatus(events[e].status)
  }

  ghost predicate HasLiveEvent(events: map<EventId, Event>, c: CaseId) {
    exists e :: LiveEvent(events, e, c)
  }

  /** Upper case of the ASCII letters. */
  function Upper(s: string): string {
    seq(|s|, i requires 0 <= i < |s| => if 'a' <= s[i] <= 'z' then s[i] - 'a' + 'A' else s[i])
  }

  /** Small letters become the capitals 32 places before them, nothing else changes, and upper case is left
      as it is. */
  lemma UpperExactly(s: string)
    ensures |Upper(s)| == |s| && Upper(Upper(s)) == Upper(s)
    ensures forall i :: 0 <= i < |s| ==>
              Upper(s)[i] as int == if 97 <= s[i] as int <= 122 then s[i] as int - 32 else s[i] as int
  {
  }
}
