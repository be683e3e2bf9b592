/** The two transition tables of the work ledger. */
module WorkStates {

  datatype WorkStatus =
    | Proposed | Accepted | Planned | Running | Blocked | WaitingApproval | Reviewing
    | Deferred | Rejected | Completed | Failed | Cancelled | Archived

  predicate MayBecome(s: WorkStatus, to: WorkStatus) {
    match s
    case Proposed =>
      to in {Accepted, Planned, Running, WaitingApproval, WorkStatus.Rejected, WorkStatus.Deferred, Cancelled,
        Completed, Failed}
    case Accepted => to in {Planned, Running, WaitingApproval, Blocked, Cancelled, Completed, Failed}
    case Planned => to in {Running, Blocked, WaitingApproval, Cancelled, Completed, Failed}
    case Running => to in {Blocked, WaitingApproval, Reviewing, Completed, Failed, Cancelled}
    case Blocked => to in {Planned, Running, WaitingApproval, Cancelled, Failed}
    case WaitingApproval => to in {Planned, Running, Reviewing, Completed, WorkStatus.Rejected, Cancelled}
    case Reviewing => to in {Running, Completed, Failed, Cancelled}
    case Deferred => to in {WorkStatus.Proposed, Planned, Cancelled}
    case Rejected => false
    case Completed => to in {WorkStatus.Archived}
    case Failed => to in {Planned, Running, WorkStatus.Archived}
    case Cancelled => to in {WorkStatus.Archived}
    case Archived => false
  }

  datatype ProposalStatus = Proposed | ApprovedForDev | Active | Deferred | Duplicate | Unsafe | Rejected | Archived

  predicate MayTurn(s: ProposalStatus, to: ProposalStatus) {
    match s
    case Proposed => to in {ApprovedForDev, ProposalStatus.Rejected, ProposalStatus.Deferred, Duplicate, Unsafe}
    case Deferred => to in {ProposalStatus.Proposed, ApprovedForDev, ProposalStatus.Rejected}
    case ApprovedForDev => to in {Active, ProposalStatus.Deferred, ProposalStatus.Rejected}
    case Active => to in {ProposalStatus.Archived}
    case Duplicate => false
    case Unsafe => false
    case Rejected => false
    case Archived => false
  }

  /** Where a work item can come from. */
  function ComesFrom(to: WorkStatus): set<WorkStatus> {
    match to
    case Proposed => {WorkStatus.Deferred}
    case Accepted => {WorkStatus.Proposed}
    case Planned => {WorkStatus.Proposed, Accepted, Blocked, WaitingApproval, WorkStatus.Deferred, Failed}
    case Running => {WorkStatus.Proposed, Accepted, Planned, Blocked, WaitingApproval, Reviewing, Failed}
    case Blocked => {Accepted, Planned, Running}
    case WaitingApproval => {WorkStatus.Proposed, Accepted, Planned, Running, Blocked}
    case Reviewing => {Running, WaitingApproval}
    case Deferred => {WorkStatus.Proposed}
    case Rejected => {WorkStatus.Proposed, WaitingApproval}
    case Completed => {WorkStatus.Proposed, Accepted, Planned, Running, WaitingApproval, Reviewing}
    case Failed => {WorkStatus.Proposed, Accepted, Planned, Running, Blocked, Reviewing}
    case Cancelled =>
      {WorkStatus.Proposed, Accepted, Planned, Running, Blocked, WaitingApproval, Reviewing, WorkStatus.Deferred}
    case Archived => {Completed, Failed, Cancelled}
  }

  lemma TableReadBackwards(s: WorkStatus, to: WorkStatus)
    ensures MayBecome(s, to) <==> s in ComesFrom(to)
  {
  }

  /** Where a proposal can come from. */
  function TurnsFrom(to: ProposalStatus): set<ProposalStatus> {
    match to
    case Proposed => {ProposalStatus.Deferred}
    case ApprovedForDev => {ProposalStatus.Proposed, ProposalStatus.Deferred}
    case Active => {ApprovedForDev}
    case Deferred => {ProposalStatus.Proposed, ApprovedForDev}
    case Duplicate => {ProposalStatus.Proposed}
    case Unsafe => {ProposalStatus.Proposed}
    case Rejected => {ProposalStatus.Proposed, ProposalStatus.Deferred, ApprovedForDev}
    case Archived => {Active}
  }

  lemma ProposalTableReadBackwards(s: ProposalStatus, to: ProposalStatus)
    ensures MayTurn(s, to) <==> s in TurnsFrom(to)
  {
  }

  /** A path through the work table. */
  predicate IsPath(path: seq<WorkStatus>) {
    path != [] && forall i :: 0 < i < |path| ==> MayBecome(path[i - 1], path[i])
  }

  /** Rejected and archived are final, and from every other status an archived item can be reached in three moves. */
  lemma EverythingCanBeArchived(s: WorkStatus) returns (path: seq<WorkStatus>)
    ensures (forall to :: !MayBecome(s, to)) <==> s == WorkStatus.Rejected || s == WorkStatus.Archived
    ensures s != WorkStatus.Rejected ==>
      IsPath(path) && |path| <= 3 && path[0] == s && path[|path| - 1] == WorkStatus.Archived
  {
    path := if s == WorkStatus.Archived then [s]
            else if s in {Completed, Failed, Cancelled} then [s, WorkStatus.Archived]
            else [s, Cancelled, WorkStatus.Archived];
    assert s !in {WorkStatus.Rejected, WorkStatus.Archived} ==>
      MayBecome(s, Cancelled) || MayBecome(s, WorkStatus.Archived);
  }

  /** Completed and cancelled work can only be archived; failed work can also be planned or run again. */
  lemma OnlyFailedIsRevived(s: WorkStatus, to: WorkStatus)
    requires s in {Completed, Cancelled, Failed} && MayBecome(s, to)
    ensures to == WorkStatus.Archived || (s == Failed && to in {Planned, Running})
  {
  }
}
