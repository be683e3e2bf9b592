/** The work dispatcher: a worker takes a message, starts the work, and finishes or fails it. */
module Workers {
  import opened Wrappers
  import opened WorkStates
  import opened Patches
  import opened Ledgers
  import opened HarnessMemories
  import opened WorkQueues
  import opened WorkServices

  /** The message names a job of the ledger and that job's item. */
  predicate Addressed(b: Books, m: Message) {
    m.job in b.jobs && b.jobs[m.job].work == m.work && m.work in b.items
  }

  /** May the worker run the item, and what it does to the item before. */
  predicate Runnable(kind: WorkType, s: WorkStatus) {
    if kind == SelfPatch then s in {Accepted, Planned, Running}
    else s in {Accepted, Planned, Running, Blocked, WaitingApproval}
  }

  function StartWork(b: Books, work: int, job: int): Books
    requires work in b.items
  {
    var kind, status := b.items[work].kind, b.items[work].status;
    if !Runnable(kind, status) then b.Note(work, WorkerObservedNonRunnable)
    else if kind != SelfPatch then
      if status == Accepted then b.Move(work, Planned, Some(job)).value else b.Note(work, WorkerObservedPlannedWork)
    else
      if status == Running then b.Note(work, WorkerResumedRunningWork) else b.Move(work, Running, Some(job)).value
  }

  /** The job runs, and the item is started if it is runnable. */
  function Begin(d: Desk, m: Message): (Desk, bool)
    requires Addressed(d.books, m)
  {
    var started := StartWork(d.books.MarkRunning(m.job), m.work, m.job);
    if Runnable(d.books.items[m.work].kind, d.books.items[m.work].status) then
      (d.With(started.Note(m.work, JobHeartbeat)), true)
    else (d.With(started), false)
  }

  /** What is reported for a message: a self-patch run's own result, or what the dispatcher says. */
  function Reported(kind: WorkType, runnable: bool, result: RunResult): RunResult {
    if !runnable then Ignored else if kind == SelfPatch then result else Dispatched
  }

  /** The status of a self-patch run; the patch itself is what the run leaves behind. */
  function ResultStatus(patch: Option<Patch>, testsPassed: bool, diffCheckPassed: bool, codexPassed: bool): RunResult {
    if patch.None? then (if codexPassed then NoPatch else CodexFailedNoPatch)
    else if !diffCheckPassed then DiffCheckFailed
    else if testsPassed then PatchReady(patch.value)
    else TestFailed
  }

  /** A run asks for activation exactly with a patch that passed the tests and the format check; it asks for
      review when something failed, and only a run that changed nothing blocks the item. */
  lemma ResultSendsItem(patch: Option<Patch>, testsPassed: bool, diffCheckPassed: bool, codexPassed: bool)
    ensures var to := StatusAfter(ResultStatus(patch, testsPassed, diffCheckPassed, codexPassed));
      && (to == WaitingApproval <==> patch.Some? && testsPassed && diffCheckPassed)
      && (to == Blocked <==> patch.None? && codexPassed)
      && (to == Reviewing <==> (patch.Some? && !(testsPassed && diffCheckPassed)) || (patch.None? && !codexPassed))
  {
  }

  /** Where a self-patch result sends the item. */
  function StatusAfter(result: RunResult): WorkStatus {
    match result
    case PatchReady(_) => WaitingApproval
    case TestFailed => Reviewing
    case DiffCheckFailed => Reviewing
    case CodexFailedNoPatch => Reviewing
    case _ => Blocked
  }

  function RecordResult(b: Books, work: int, job: int, result: RunResult): Books
    requires work in b.items
  {
    var noted := b.Note(work, NoteAdded);
    if b.items[work].kind != SelfPatch then noted
    else noted.MoveOrNote(work, StatusAfter(result), Some(job), WorkerTransitionSkipped)
  }

  function End(d: Desk, m: Message, runnable: bool, outcome: RunResult): Desk
    requires Addressed(d.books, m)
  {
    var result := Reported(d.books.items[m.work].kind, runnable, outcome);
    var ran := if runnable then d.books.Note(m.work, JobHeartbeat) else d.books;
    Desk(RecordResult(ran, m.work, m.job, result).MarkCompleted(m.job, result), d.queue.Ack(m))
  }

  function RecordFailure(b: Books, m: Message): Books
    requires m.work in b.items
  {
    if m.kind != SelfPatch then b
    else b.Note(m.work, SelfPatchFailed).Note(m.work, NoteAdded)
          .MoveOrNote(m.work, Reviewing, Some(m.job), WorkerTransitionSkipped)
  }

  /** An exception while the message was processed. Self-patch failures are never retryable, and
      only a dead job's message is acknowledged. */
  function Collapse(d: Desk, m: Message): Desk
    requires Addressed(d.books, m)
  {
    var failed := d.books.MarkFailed(m.job, m.kind != SelfPatch);
    Desk(RecordFailure(failed, m),
         if failed.jobs[m.job].status == DeadLetter then d.queue.DeadLetter(m.job).Ack(m) else d.queue)
  }

  class WorkDispatcher {
    const memory: HarnessMemory
    const queue: InMemoryWorkQueue

    ghost function Model(): Desk
      reads memory, queue
    {
      Desk(memory.Model(), queue.Model())
    }

    constructor (memory: HarnessMemory, queue: InMemoryWorkQueue)
      ensures this.memory == memory && this.queue == queue
    {
      this.memory, this.queue := memory, queue;
    }

    method MarkRunnableWorkStarted(work: int, job: int) returns (runnable: bool)
      requires work in memory.items
      modifies memory
      ensures memory.Model() == StartWork(old(memory.Model()), work, job)
      ensures runnable == old(Runnable(memory.items[work].kind, memory.items[work].status))
    {
      var kind, status := memory.items[work].kind, memory.items[work].status;
      runnable := true;
      if kind != SelfPatch {
        if status == Accepted {
          var error := memory.TransitionWorkItem(work, Planned, Some(job));
        } else if status in {Planned, Running, Blocked, WaitingApproval} {
          memory.AddWorkEvent(work, Logged(WorkerObservedPlannedWork));
        } else {
          memory.AddWorkEvent(work, Logged(WorkerObservedNonRunnable));
          runnable := false;
        }
      } else if status in {Accepted, Planned} {
        var error := memory.TransitionWorkItem(work, Running, Some(job));
      } else if status == Running {
        memory.AddWorkEvent(work, Logged(WorkerResumedRunningWork));
      } else {
        memory.AddWorkEvent(work, Logged(WorkerObservedNonRunnable));
        runnable := false;
      }
    }

    method StartMessage(m: Message) returns (runnable: bool)
      requires Addressed(memory.Model(), m)
      modifies memory, queue
      ensures (Model(), runnable) == Begin(old(Model()), m)
    {
      memory.MarkWorkJobRunning(m.job);
      runnable := MarkRunnableWorkStarted(m.work, m.job);
      if runnable {
        memory.AddWorkEvent(m.work, Logged(JobHeartbeat));
      }
    }

    method RecordWorkResult(work: int, job: int, result: RunResult)
      requires work in memory.items
      modifies memory
      ensures memory.Model() == RecordResult(old(memory.Model()), work, job, result)
    {
      var kind := memory.items[work].kind;
      memory.AddWorkEvent(work, Logged(NoteAdded));
      if kind == SelfPatch {
        memory.TransitionOrNote(work, StatusAfter(result), Some(job), WorkerTransitionSkipped);
      }
    }

    method FinishMessage(m: Message, runnable: bool, outcome: RunResult)
      requires Addressed(memory.Model(), m)
      modifies memory, queue
      ensures Model() == End(old(Model()), m, runnable, outcome)
    {
      var result := Reported(memory.items[m.work].kind, runnable, outcome);
      if runnable {
        memory.AddWorkEvent(m.work, Logged(JobHeartbeat));
      }
      RecordWorkResult(m.work, m.job, result);
      memory.MarkWorkJobCompleted(m.job, result);
      queue.Ack(m.queue, m.id);
    }

    method FailMessage(m: Message)
      requires Addressed(memory.Model(), m)
      modifies memory, queue
      ensures Model() == Collapse(old(Model()), m)
    {
      var status := memory.MarkWorkJobFailed(m.job, m.kind != SelfPatch);
      if m.kind == SelfPatch {
        memory.AddWorkEvent(m.work, Logged(SelfPatchFailed));
        memory.AddWorkEvent(m.work, Logged(NoteAdded));
        memory.TransitionOrNote(m.work, Reviewing, Some(m.job), WorkerTransitionSkipped);
      }
      if status == DeadLetter {
        queue.DeadLetter(m.job);
        queue.Ack(m.queue, m.id);
      }
    }
  }
}
