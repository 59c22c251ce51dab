/** The audit log of a case read as its history: replaying it rebuilds the row. */
module History {
  import opened Domain
  import opened Tables

  /** A case row rebuilt from its log, and whether a first high-value approval is on record. */
  datatype Replayed = Replayed(row: CaseRow, firstApproved: bool)

  /** What one write of a case may change. */
  predicate LegalWrite(before: CaseRow, after: CaseRow, action: Action) {
    && after.status in Transitions(before.status)
    && after.version == before.version + 1
    && after.org == before.org
    && after.requested == before.requested
    && after.currency == before.currency
    && (action != RefundApprovedByFinance ==> after.approved == before.approved)
    && (action == RetryAuthorized <==> before.status == NeedsReconciliation && after.status == RefundPending)
  }

  predicate OpensLog(row: AuditRow) {
    && row.action == ReturnCreated
    && row.before.None?
    && row.after.Some?
    && row.after.value.status == Requested
    && row.after.value.version == 1
    && row.after.value.approved.None?
  }

  /** The state after one more audit row, or `None` when the row does not continue the log. */
  function ReplayStep(state: Replayed, row: AuditRow): Option<Replayed> {
    if row.action == FirstApprovalRecorded then
      if state.row.status == Inspected && !state.firstApproved && row.before.None? && row.after.None?
      then Some(Replayed(state.row.(version := state.row.version + 1), true))
      else None
    else if row.before == Some(state.row) && row.after.Some? && LegalWrite(state.row, row.after.value, row.action)
    then Some(Replayed(row.after.value, state.firstApproved))
    else None
  }

  function Replay(log: seq<AuditRow>): Option<Replayed> {
    if log == [] then None
    else if |log| == 1 then
      if OpensLog(log[0]) then Some(Replayed(log[0].after.value, false)) else None
    else
      match Replay(log[..|log| - 1])
      case None => None
      case Some(state) => ReplayStep(state, log[|log| - 1])
  }

  lemma ReplayAppend(log: seq<AuditRow>, row: AuditRow)
    requires Replay(log).Some?
    ensures Replay(log + [row]) == ReplayStep(Replay(log).value, row)
  {
    assert (log + [row])[..|log|] == log;
  }

  /** No version is skipped or used twice: each audit row of a case accounts for exactly one. */
  lemma {:induction false} VersionCountsLog(log: seq<AuditRow>)
    requires Replay(log).Some?
    ensures Replay(log).value.row.version == |log|
  {
    if |log| > 1 {
      VersionCountsLog(log[..|log| - 1]);
    }
  }

  /** Retries authorised by finance in a log. */
  function Retries(log: seq<AuditRow>): nat {
    if log == [] then 0
    else Retries(log[..|log| - 1]) + (if log[|log| - 1].action == RetryAuthorized then 1 else 0)
  }

  /** How many writes a case can still see without another retry. */
  function Rank(status: ReturnStatus, firstApproved: bool): nat {
    match status
    case Requested => 11
    case Authorized => 10
    case Received => 9
    case Inspected => if firstApproved then 7 else 8
    case RefundApproved => 6
    case RefundPending => 5
    case RefundUnknown => 4
    case NeedsReconciliation => 3
    case Refunded => 2
    case Reconciled => 1
    case Closed => 0
    case Rejected => 0
  }

  /** Every write lowers the rank; only an authorised retry raises it, and by two. */
  lemma StepLowersRank(state: Replayed, row: AuditRow)
    requires ReplayStep(state, row).Some?
    ensures var after := ReplayStep(state, row).value;
            if row.action == RetryAuthorized
            then Rank(after.row.status, after.firstApproved) == Rank(state.row.status, state.firstApproved) + 2
            else Rank(after.row.status, after.firstApproved) < Rank(state.row.status, state.firstApproved)
  {
  }

  /** A case with r authorised retries is written at most 12 + 3r times. */
  lemma {:induction false} LogIsBounded(log: seq<AuditRow>)
    requires Replay(log).Some?
    ensures var end := Replay(log).value;
            |log| + Rank(end.row.status, end.firstApproved) <= 12 + 3 * Retries(log)
  {
    var front, last := log[..|log| - 1], log[|log| - 1];
    if |log| == 1 {
      assert Retries(front) == 0;
    } else {
      LogIsBounded(front);
      StepLowersRank(Replay(front).value, last);
    }
  }

  /** Entry k of a replayable log continues the state rebuilt from the entries before it. */
  lemma {:induction false} EveryEntryContinues(log: seq<AuditRow>, k: nat)
    requires Replay(log).Some? && 0 < k < |log|
    ensures Replay(log[..k]).Some?
    ensures ReplayStep(Replay(log[..k]).value, log[k]) == Replay(log[..k + 1])
    ensures Replay(log[..k + 1]).Some?
  {
    if k == |log| - 1 {
      assert log[..k + 1] == log;
    } else {
      EveryEntryContinues(log[..|log| - 1], k);
      assert log[..|log| - 1][..k] == log[..k];
      assert log[..|log| - 1][..k + 1] == log[..k + 1];
    }
  }

  /** Where a log goes on, the case was neither closed nor rejected. */
  lemma OnlyOpenCasesContinue(log: seq<AuditRow>, k: nat)
    requires Replay(log).Some? && 0 < k < |log|
    ensures Replay(log[..k]).Some? && !Terminal(Replay(log[..k]).value.row.status)
  {
    EveryEntryContinues(log, k);
  }
}
