/** The work ledger: work items with their event logs, jobs and proposals. */
module Ledgers {
  import opened Wrappers
  import opened WorkStates
  import opened Patches

  datatype WorkType = SelfPatch | ExternalWork | RuntimeTask | OtherWork

  datatype QueueName = SelfPatchQueue | ExternalWorkQueue | RuntimeTaskQueue

  function QueueFor(kind: WorkType): QueueName {
    match kind
    case SelfPatch => SelfPatchQueue
    case RuntimeTask => RuntimeTaskQueue
    case _ => ExternalWorkQueue
  }

  /** How a job ended. Only a self-patch run reports the first five. */
  datatype RunResult =
    | PatchReady(patch: Patch) | TestFailed | DiffCheckFailed | CodexFailedNoPatch | NoPatch
    | Ignored | Dispatched | OtherResult

  datatype Remark =
    | NoteAdded | JobCreatedRemark | JobQueuedRemark | JobEnqueueFailedRemark | JobRunningRemark | JobHeartbeat
    | JobFailedRemark | SelfPatchFailed | WorkerObservedPlannedWork | WorkerResumedRunningWork
    | WorkerObservedNonRunnable | WorkerTransitionSkipped | PromotedToSelfPatch | RetryStatusRestoreFailed
    | LinkedCapabilityProposal | ProposalTransition | ActivationFailed | ActivationReloadFailed
    | ActivationVerified | Activated | ActivationTransitionSkipped | ParentCompletionSkipped

  /** One row of the work event log. A status-named event carries the job in its payload, if any. */
  datatype Event =
    | Created(status: WorkStatus)
    | Moved(status: WorkStatus, job: Option<int>)
    | Finished(jobId: int, result: RunResult)
    | Logged(remark: Remark)

  /** A work item and the events of the log that are its own. */
  datatype Item = Item(kind: WorkType, parent: Option<int>, status: WorkStatus, events: seq<Event>) {
    function Add(e: Event): Item {
      this.(events := events + [e])
    }

    function Become(to: WorkStatus, job: Option<int>): Item {
      this.(status := to, events := events + [Moved(to, job)])
    }

    /** The status column is the fold of the log, and every move of the log is in the table. */
    predicate Sound() {
      Replay(events) == Some(status)
    }

    /** While activation is awaited, the patch it would take comes from the job that asked for it last. */
    predicate Tracked() {
      status.WaitingApproval? ==> LatestReady(events).Some? && LastAsker(events) == LatestReady(events)
    }

    /** If it was a job that asked last, then the patch comes from that job. */
    predicate Attributed() {
      status.WaitingApproval? && LastAsker(events).Some? ==> LatestReady(events) == LastAsker(events)
    }

    /** While activation is awaited, it was a job that asked last. */
    predicate Asked() {
      status.WaitingApproval? ==> LastAsker(events).Some?
    }

    /** While activation is awaited, it was not a job that asked last. */
    predicate Unasked() {
      status.WaitingApproval? ==> LastAsker(events).None?
    }
  }

  function Replay(events: seq<Event>): Option<WorkStatus> {
    if events == [] then None else
    var before := Replay(events[..|events| - 1]);
    match events[|events| - 1]
    case Created(status) => if |events| == 1 then Some(status) else None
    case Moved(to, _) => if before.Some? && MayBecome(before.value, to) then Some(to) else None
    case _ => before
  }

  /** The job whose finished patch the activation would take. */
  function LatestReady(events: seq<Event>): Option<int> {
    if events == [] then None else
    match events[|events| - 1]
    case Finished(job, PatchReady(_)) => Some(job)
    case _ => LatestReady(events[..|events| - 1])
  }

  /** The patch itself, searched from the end of the log. */
  function LatestPatch(events: seq<Event>): Option<Patch> {
    if events == [] then None else
    match events[|events| - 1]
    case Finished(_, PatchReady(patch)) => Some(patch)
    case _ => LatestPatch(events[..|events| - 1])
  }

  /** The job that last moved the item to waiting_approval, if a job did. */
  function LastAsker(events: seq<Event>): Option<int> {
    if events == [] then None else
    match events[|events| - 1]
    case Moved(WaitingApproval, job) => job
    case _ => LastAsker(events[..|events| - 1])
  }

  datatype JobStatus = Fresh | Queued | EnqueueFailed | InProgress | RetryWait | Done | DeadLetter

  /** The statuses in which a job may still be taken up or is being worked on. */
  predicate IsActive(s: JobStatus) {
    s in {Fresh, Queued, InProgress, RetryWait}
  }

  datatype Job = Job(work: int, kind: WorkType, status: JobStatus, attempts: int, maxAttempts: int,
      message: Option<int>)

  datatype ProposalEvent = Opened(status: ProposalStatus) | Turned(status: ProposalStatus) | Remarked

  /** A capability proposal. Each is created together with its own work item and is known here by
      that item's identifier. */
  datatype Proposal = Proposal(status: ProposalStatus, events: seq<ProposalEvent>) {
    function Become(to: ProposalStatus): Proposal {
      Proposal(to, events + [Turned(to)])
    }

    predicate Sound() {
      ReplayProposal(events) == Some(status)
    }
  }

  function ReplayProposal(events: seq<ProposalEvent>): Option<ProposalStatus> {
    if events == [] then None else
    var before := ReplayProposal(events[..|events| - 1]);
    match events[|events| - 1]
    case Opened(status) => if |events| == 1 then Some(status) else None
    case Turned(to) => if before.Some? && MayTurn(before.value, to) then Some(to) else None
    case Remarked => before
  }

  datatype LedgerError = UnknownWork | UnknownProposal | InvalidTransition

  /** The three tables. */
  datatype Books = Books(items: map<int, Item>, jobs: map<int, Job>, proposals: map<int, Proposal>) {
    predicate HasActiveJob(work: int) {
      exists j :: j in jobs && jobs[j].work == work && IsActive(jobs[j].status)
    }

    function Open(work: int, kind: WorkType, parent: Option<int>, status: WorkStatus): Books
      requires work !in items
    {
      this.(items := items[work := Item(kind, parent, status, [Created(status)])])
    }

    function Log(work: int, e: Event): Books
      requires work in items
    {
      this.(items := items[work := items[work].Add(e)])
    }

    function Note(work: int, remark: Remark): Books
      requires work in items
    {
      Log(work, Logged(remark))
    }

    /** The status change that the table allows from the item's present status. */
    function Move(work: int, to: WorkStatus, job: Option<int>): Result<Books, LedgerError> {
      if work !in items then Err(UnknownWork)
      else if !MayBecome(items[work].status, to) then Err(InvalidTransition)
      else Ok(this.(items := items[work := items[work].Become(to, job)]))
    }

    /** The status change if it is allowed, a remark in the log otherwise. */
    function MoveOrNote(work: int, to: WorkStatus, job: Option<int>, otherwise: Remark): Books
      requires work in items
    {
      var moved := Move(work, to, job);
      if moved.Ok? then moved.value else Note(work, otherwise)
    }

    function PutJob(id: int, job: Job): Books {
      this.(jobs := jobs[id := job])
    }

    function MoveProposal(p: int, to: ProposalStatus): Result<Books, LedgerError> {
      if p !in proposals then Err(UnknownProposal)
      else if !MayTurn(proposals[p].status, to) then Err(InvalidTransition)
      else Ok(this.(proposals := proposals[p := proposals[p].Become(to)]))
    }

    /** A new job row and its log entry. */
    function CreateJob(id: int, work: int, maxAttempts: int): Books
      requires work in items && id !in jobs
    {
      PutJob(id, Job(work, items[work].kind, Fresh, 0, Max(1, maxAttempts), None)).Note(work, JobCreatedRemark)
    }

    /** A job row changes together with an entry in its item's log. */
    function SetJob(id: int, job: Job, e: Event): Books
      requires id in jobs && job.work in items && job.work == jobs[id].work
    {
      PutJob(id, job).Log(job.work, e)
    }

    function MarkQueued(id: int, message: int): Books
      requires id in jobs && jobs[id].work in items
    {
      SetJob(id, jobs[id].(status := Queued, message := Some(message)), Logged(JobQueuedRemark))
    }

    function MarkEnqueueFailed(id: int): Books
      requires id in jobs && jobs[id].work in items
    {
      SetJob(id, jobs[id].(status := EnqueueFailed), Logged(JobEnqueueFailedRemark))
    }

    function MarkRunning(id: int): Books
      requires id in jobs && jobs[id].work in items
    {
      SetJob(id, jobs[id].(status := InProgress, attempts := jobs[id].attempts + 1), Logged(JobRunningRemark))
    }

    function MarkCompleted(id: int, result: RunResult): Books
      requires id in jobs && jobs[id].work in items
    {
      SetJob(id, jobs[id].(status := Done), Finished(id, result))
    }

    /** A retryable failure leaves the job waiting while attempts are left. */
    function MarkFailed(id: int, retryable: bool): Books
      requires id in jobs && jobs[id].work in items
    {
      SetJob(id, jobs[id].(status := AfterFailure(jobs[id], retryable)), Logged(JobFailedRemark))
    }
  }

  function AfterFailure(job: Job, retryable: bool): JobStatus {
    if retryable && job.attempts < job.maxAttempts then RetryWait else DeadLetter
  }
}
