/** The work item service: transition, enqueue, retry, promote and create. */
module WorkServices {
  import opened Wrappers
  import opened WorkStates
  import opened Ledgers
  import opened HarnessMemories
  import opened WorkQueues

  /** The ledger and the queue, which the services change together. */
  datatype Desk = Desk(books: Books, queue: QueueData) {
    function With(b: Books): Desk {
      this.(books := b)
    }
  }

  datatype Reply =
    | QueuedAs(message: int) | ActiveJobExists | NotQueued | Changed | ChildExists(child: int)
    | Refused(reason: Refusal)

  datatype Refusal = NoSuchWork | NoSuchProposal | WrongType | WrongStatus | TransitionNotAllowed

  function RefusalFor(e: LedgerError): Refusal {
    match e
    case UnknownWork => NoSuchWork
    case UnknownProposal => NoSuchProposal
    case InvalidTransition => TransitionNotAllowed
  }

  /** What a caller chooses or meets when a job is submitted: the new job's identifier, how many attempts
      it gets, and whether the queue is configured and takes the message. */
  datatype Submission = Submission(job: int, maxAttempts: int, reachable: bool)

  /** A job that was just created is published and marked queued, or marked as not enqueued. */
  function Submit(d: Desk, job: int, reachable: bool): (r: (Desk, Reply))
    requires job in d.books.jobs && d.books.jobs[job].work in d.books.items
  {
    var row := d.books.jobs[job];
    if reachable then
      var queue := d.queue.Publish(QueueFor(row.kind), job, row.work, row.kind);
      (Desk(d.books.MarkQueued(job, queue.counter), queue), QueuedAs(queue.counter))
    else (d.With(d.books.MarkEnqueueFailed(job)), NotQueued)
  }

  function Enqueue(d: Desk, work: int, s: Submission): (r: (Desk, Reply))
    requires s.job !in d.books.jobs
    ensures r.1.Refused? <==> work !in d.books.items
    ensures r.1.ActiveJobExists? <==> work in d.books.items && d.books.HasActiveJob(work)
    ensures r.1.Refused? || r.1.ActiveJobExists? ==> r.0 == d
  {
    if work !in d.books.items then (d, Refused(NoSuchWork))
    else if d.books.HasActiveJob(work) then (d, ActiveJobExists)
    else Submit(d.With(d.books.CreateJob(s.job, work, s.maxAttempts)), s.job, s.reachable)
  }

  /** A user's status change; accepting an item also enqueues it. */
  function Transition(d: Desk, work: int, to: WorkStatus, s: Submission): (r: (Desk, Reply))
    requires s.job !in d.books.jobs
    ensures r.1.Refused? ==> r.0 == d
  {
    match d.books.Move(work, to, None)
    case Err(e) => (d, Refused(RefusalFor(e)))
    case Ok(moved) => if to == Accepted then Enqueue(d.With(moved), work, s) else (d.With(moved), Changed)
  }

  predicate Retryable(s: WorkStatus) {
    s in {Reviewing, Blocked, Failed}
  }

  /** A retry proper: a new job, the item running again, and its old status back if the job is not published. */
  function Resubmit(d: Desk, work: int, s: Submission): (r: (Desk, Reply))
    requires s.job !in d.books.jobs && work in d.books.items && Retryable(d.books.items[work].status)
    ensures !r.1.Refused? && !r.1.ActiveJobExists?
  {
    var previous := d.books.items[work].status;
    var running := d.books.CreateJob(s.job, work, s.maxAttempts).Move(work, Running, Some(s.job)).value;
    var (submitted, reply) := Submit(d.With(running), s.job, s.reachable);
    (if s.reachable then submitted
     else submitted.With(submitted.books.MoveOrNote(work, previous, Some(s.job), RetryStatusRestoreFailed)),
     reply)
  }

  function Retry(d: Desk, work: int, s: Submission): (r: (Desk, Reply))
    requires s.job !in d.books.jobs
    ensures r.1.Refused? || r.1.ActiveJobExists? ==> r.0 == d
  {
    if work !in d.books.items then (d, Refused(NoSuchWork))
    else if d.books.items[work].kind != SelfPatch then (d, Refused(WrongType))
    else if !Retryable(d.books.items[work].status) then (d, Refused(WrongStatus))
    else if d.books.HasActiveJob(work) then (d, ActiveJobExists)
    else Resubmit(d, work, s)
  }

  predicate Promotable(s: WorkStatus) {
    s !in {WorkStatus.Rejected, Cancelled, Completed, WorkStatus.Archived}
  }

  predicate Reusable(s: WorkStatus) {
    s !in {WorkStatus.Rejected, Cancelled, Failed, WorkStatus.Archived}
  }

  predicate IsChild(b: Books, child: int, parent: int) {
    child in b.items && b.items[child].parent == Some(parent) && b.items[child].kind == SelfPatch
  }

  /** The children of the parent that the query lists, most recently updated first, at most ten. */
  predicate IsListing(b: Books, parent: int, listed: seq<int>) {
    && |listed| <= 10
    && (forall i, j :: 0 <= i < j < |listed| ==> listed[i] != listed[j])
    && (forall i :: 0 <= i < |listed| ==> IsChild(b, listed[i], parent))
    && (|listed| < 10 ==> forall c :: c in b.items && IsChild(b, c, parent) ==> c in listed)
  }

  function FirstReusable(b: Books, listed: seq<int>): (r: Option<int>)
    requires forall i :: 0 <= i < |listed| ==> listed[i] in b.items
    ensures r.Some? ==> r.value in listed && Reusable(b.items[r.value].status)
    ensures r.None? ==> forall i :: 0 <= i < |listed| ==> !Reusable(b.items[listed[i]].status)
  {
    if listed == [] then None
    else if Reusable(b.items[listed[0]].status) then Some(listed[0])
    else FirstReusable(b, listed[1..])
  }

  /** A self-patch child is created for an external item, unless a listed one is still usable. */
  function Promote(d: Desk, work: int, listed: seq<int>, child: int, s: Submission): (r: (Desk, Reply))
    requires child !in d.books.items && s.job !in d.books.jobs && IsListing(d.books, work, listed)
    ensures r.1.Refused? || r.1.ChildExists? ==> r.0 == d
  {
    if work !in d.books.items then (d, Refused(NoSuchWork)) else
    var item := d.books.items[work];
    if item.kind != ExternalWork then (d, Refused(WrongType))
    else if !Promotable(item.status) then (d, Refused(WrongStatus))
    else
      var usable := FirstReusable(d.books, listed);
      if usable.Some? then (d, ChildExists(usable.value))
      else
        var created := d.books.Open(child, SelfPatch, Some(work), Accepted);
        Enqueue(d.With(created.Note(work, PromotedToSelfPatch).Note(work, NoteAdded)), child, s)
  }

  class WorkItemService {
    const memory: HarnessMemory
    const queue: InMemoryWorkQueue

    ghost function Model(): Desk
      reads memory, queue
    {
      Desk(memory.Model(), queue.Model())
    }

    constructor (memory: HarnessMemory, queue: InMemoryWorkQueue)
      ensures this.memory == memory && this.queue == queue
    {
      this.memory, this.queue := memory, queue;
    }

    method SubmitJob(job: int, reachable: bool) returns (reply: Reply)
      requires job in memory.jobs && memory.jobs[job].work in memory.items
      modifies memory, queue
      ensures (Model(), reply) == Submit(old(Model()), job, reachable)
    {
      if !reachable {
        memory.MarkWorkJobEnqueueFailed(job);
        return NotQueued;
      }
      var row := memory.jobs[job];
      var message := queue.Enqueue(QueueFor(row.kind), job, row.work, row.kind);
      memory.MarkWorkJobQueued(job, message);
      reply := QueuedAs(message);
    }

    method EnqueueWork(work: int, s: Submission) returns (reply: Reply)
      requires s.job !in memory.jobs
      modifies memory, queue
      ensures (Model(), reply) == Enqueue(old(Model()), work, s)
    {
      if work !in memory.items {
        return Refused(NoSuchWork);
      }
      var existing := memory.FindActiveWorkJob(work);
      if existing.Some? {
        return ActiveJobExists;
      }
      memory.CreateWorkJob(s.job, work, s.maxAttempts);
      reply := SubmitJob(s.job, s.reachable);
    }

    method TransitionWork(work: int, to: WorkStatus, s: Submission) returns (reply: Reply)
      requires s.job !in memory.jobs
      modifies memory, queue
      ensures (Model(), reply) == Transition(old(Model()), work, to, s)
    {
      var error := memory.TransitionWorkItem(work, to, None);
      if error.Some? {
        return Refused(RefusalFor(error.value));
      }
      if to == Accepted {
        reply := EnqueueWork(work, s);
      } else {
        reply := Changed;
      }
    }

    method RetryWork(work: int, s: Submission) returns (reply: Reply)
      requires s.job !in memory.jobs
      modifies memory, queue
      ensures (Model(), reply) == Retry(old(Model()), work, s)
    {
      if work !in memory.items {
        return Refused(NoSuchWork);
      }
      if memory.items[work].kind != SelfPatch {
        return Refused(WrongType);
      }
      if !Retryable(memory.items[work].status) {
        return Refused(WrongStatus);
      }
      var existing := memory.FindActiveWorkJob(work);
      if existing.Some? {
        return ActiveJobExists;
      }
      reply := ResubmitWork(work, s);
    }

    method ResubmitWork(work: int, s: Submission) returns (reply: Reply)
      requires s.job !in memory.jobs && work in memory.items && Retryable(memory.items[work].status)
      modifies memory, queue
      ensures (Model(), reply) == Resubmit(old(Model()), work, s)
    {
      var previous := memory.items[work].status;
      memory.CreateWorkJob(s.job, work, s.maxAttempts);
      var error := memory.TransitionWorkItem(work, Running, Some(s.job));
      reply := SubmitJob(s.job, s.reachable);
      if !s.reachable {
        memory.TransitionOrNote(work, previous, Some(s.job), RetryStatusRestoreFailed);
      }
    }

    method PromoteToSelfPatch(work: int, listed: seq<int>, child: int, s: Submission) returns (reply: Reply)
      requires child !in memory.items && s.job !in memory.jobs && IsListing(memory.Model(), work, listed)
      modifies memory, queue
      ensures (Model(), reply) == Promote(old(Model()), work, listed, child, s)
    {
      if work !in memory.items {
        return Refused(NoSuchWork);
      }
      if memory.items[work].kind != ExternalWork {
        return Refused(WrongType);
      }
      if !Promotable(memory.items[work].status) {
        return Refused(WrongStatus);
      }
      var usable := FirstReusable(Books(memory.items, memory.jobs, memory.proposals), listed);
      if usable.Some? {
        return ChildExists(usable.value);
      }
      memory.CreateWorkItem(child, SelfPatch, Some(work), Accepted);
      memory.AddWorkEvent(work, Logged(PromotedToSelfPatch));
      memory.AddWorkEvent(work, Logged(NoteAdded));
      reply := EnqueueWork(child, s);
    }
  }
}
