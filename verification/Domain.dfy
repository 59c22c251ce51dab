/** The case lifecycle, roles and errors: `domain/states.py`, `errors.py` and
    `require_role` of `services/tenancy.py`. */
module Domain {

  datatype Option<+T> = None | Some(value: T)

  /** Every raising path of the services ends in one of these errors. */
  datatype Error =
    | Conflict
    | VersionConflict
    | IdempotencyConflict
    | InvalidTransition
    | PermissionDenied
    | NotFound
    | ValidationFailure
    | UniqueViolation
    | RuntimeFailure

  datatype Result<+T> = Ok(value: T) | Err(error: Error)
  {
    predicate IsFailure() { Err? }
    function PropagateFailure<U>(): Result<U>
      requires Err?
    {
      Err(error)
    }
    function Extract(): T
      requires Ok?
    {
      value
    }
  }

  datatype Role = CustomerService | Warehouse | Finance | Admin | Automation

  datatype ReturnStatus =
    | Requested
    | Authorized
    | Received
    | Inspected
    | RefundApproved
    | RefundPending
    | RefundUnknown
    | NeedsReconciliation
    | Refunded
    | Reconciled
    | Closed
    | Rejected

  datatype AttemptStatus = Planned | Dispatching | Succeeded | Failed | Unknown

  datatype ApprovalKind = Eligibility | RefundApproval | HighValueSecond

  datatype ApprovalDecision = Approved | Declined

  /** UUIDs are numbers. */
  type Uuid = nat

  datatype Context = Context(org: Uuid, user: Uuid, role: Role)

  datatype Settings = Settings(highValueThreshold: int, maxDispatchAttempts: int, leaseSeconds: int)

  function Transitions(current: ReturnStatus): set<ReturnStatus> {
    match current
    case Requested => {Authorized, Rejected}
    case Authorized => {Received}
    case Received => {Inspected}
    case Inspected => {RefundApproved, Rejected}
    case RefundApproved => {RefundPending}
    case RefundPending => {Refunded, RefundUnknown, NeedsReconciliation}
    case RefundUnknown => {Refunded, NeedsReconciliation}
    case NeedsReconciliation => {Refunded, RefundPending}
    case Refunded => {Reconciled}
    case Reconciled => {Closed}
    case Closed => {}
    case Rejected => {}
  }

  function RolesByTarget(target: ReturnStatus): Option<set<Role>> {
    match target
    case Authorized => Some({CustomerService, Admin})
    case Received => Some({Warehouse, Admin})
    case Inspected => Some({Warehouse, Admin})
    case RefundApproved => Some({Finance, Admin})
    case Reconciled => Some({Finance, Admin})
    case Closed => Some({Finance, Admin})
    case Rejected => Some({CustomerService, Finance, Admin})
    case _ => None
  }

  const SYSTEM_TARGETS: set<ReturnStatus> := {RefundPending, RefundUnknown, NeedsReconciliation, Refunded}

  function AssertTransition(current: ReturnStatus, target: ReturnStatus): Result<()> {
    if target in Transitions(current) then Ok(()) else Err(InvalidTransition)
  }

  function AssertActorCanTransition(role: Option<Role>, target: ReturnStatus, system: bool): Result<()> {
    if target in SYSTEM_TARGETS then
      if system then Ok(()) else Err(PermissionDenied)
    else
      match RolesByTarget(target)
      case None => Ok(())
      case Some(allowed) =>
        if role.Some? && role.value in allowed then Ok(()) else Err(PermissionDenied)
  }

  function AssertApprovedAmount(requested: int, approved: int): Result<()> {
    if approved <= 0 || approved > requested then Err(ValidationFailure) else Ok(())
  }

  /** `require_role`: an administrator passes every role gate. */
  predicate HasRole(context: Context, roles: set<Role>) {
    context.role == Admin || context.role in roles
  }

  /** The statuses of a case whose refund has been planned. */
  predicate PastApproval(status: ReturnStatus) {
    status.RefundPending? || Uncertain(status) || Final(status)
  }

  /** The statuses in which the outcome of the refund needs a human. */
  predicate Uncertain(status: ReturnStatus) {
    status.RefundUnknown? || status.NeedsReconciliation?
  }

  /** The statuses that claim the money has moved. */
  predicate Final(status: ReturnStatus) {
    status.Refunded? || status.Reconciled? || status.Closed?
  }

  predicate Terminal(status: ReturnStatus) {
    status.Closed? || status.Rejected?
  }
}
