/** The ledger as an object: every operation changes table rows in place. */
module HarnessMemories {
  import opened Wrappers
  import opened WorkStates
  import opened Ledgers

  class HarnessMemory {
    var items: map<int, Item>
    var jobs: map<int, Job>
    var proposals: map<int, Proposal>

    ghost function Model(): Books
      reads this
    {
      Books(items, jobs, proposals)
    }

    constructor ()
      ensures Model() == Books(map[], map[], map[])
    {
      items, jobs, proposals := map[], map[], map[];
    }

    method CreateWorkItem(work: int, kind: WorkType, parent: Option<int>, status: WorkStatus)
      requires work !in items
      modifies this
      ensures Model() == old(Model()).Open(work, kind, parent, status)
    {
      items := items[work := Item(kind, parent, status, [])];
      AddWorkEvent(work, Created(status));
      assert [] + [Created(status)] == [Created(status)];
    }

    method AddWorkEvent(work: int, e: Event)
      requires work in items
      modifies this
      ensures Model() == old(Model()).Log(work, e)
    {
      items := items[work := items[work].(events := items[work].events + [e])];
    }

    method TransitionWorkItem(work: int, to: WorkStatus, job: Option<int>) returns (error: Option<LedgerError>)
      modifies this
      ensures var moved := old(Model()).Move(work, to, job);
        if moved.Ok? then error == None && Model() == moved.value else error == Some(moved.error) && unchanged(this)
    {
      if work !in items {
        return Some(UnknownWork);
      }
      if !MayBecome(items[work].status, to) {
        return Some(InvalidTransition);
      }
      items := items[work := items[work].(status := to)];
      AddWorkEvent(work, Moved(to, job));
      error := None;
    }

    /** The transition, or a remark where it would be refused. */
    method TransitionOrNote(work: int, to: WorkStatus, job: Option<int>, otherwise: Remark)
      requires work in items
      modifies this
      ensures Model() == old(Model()).MoveOrNote(work, to, job, otherwise)
    {
      if MayBecome(items[work].status, to) {
        var error := TransitionWorkItem(work, to, job);
      } else {
        AddWorkEvent(work, Logged(otherwise));
      }
    }

    method FindActiveWorkJob(work: int) returns (job: Option<int>)
      ensures job.Some? <==> Model().HasActiveJob(work)
      ensures job.Some? ==> job.value in jobs && jobs[job.value].work == work && IsActive(jobs[job.value].status)
    {
      if j :| j in jobs && jobs[j].work == work && IsActive(jobs[j].status) {
        return Some(j);
      }
      job := None;
    }

    method CreateWorkJob(id: int, work: int, maxAttempts: int)
      requires work in items && id !in jobs
      modifies this
      ensures Model() == old(Model()).CreateJob(id, work, maxAttempts)
    {
      jobs := jobs[id := Job(work, items[work].kind, Fresh, 0, Max(1, maxAttempts), None)];
      AddWorkEvent(work, Logged(JobCreatedRemark));
    }

    method MarkWorkJobQueued(id: int, message: int)
      requires id in jobs && jobs[id].work in items
      modifies this
      ensures Model() == old(Model()).MarkQueued(id, message)
    {
      jobs := jobs[id := jobs[id].(status := Queued, message := Some(message))];
      AddWorkEvent(jobs[id].work, Logged(JobQueuedRemark));
    }

    method MarkWorkJobEnqueueFailed(id: int)
      requires id in jobs && jobs[id].work in items
      modifies this
      ensures Model() == old(Model()).MarkEnqueueFailed(id)
    {
      jobs := jobs[id := jobs[id].(status := EnqueueFailed)];
      AddWorkEvent(jobs[id].work, Logged(JobEnqueueFailedRemark));
    }

    method MarkWorkJobRunning(id: int)
      requires id in jobs && jobs[id].work in items
      modifies this
      ensures Model() == old(Model()).MarkRunning(id)
    {
      jobs := jobs[id := jobs[id].(status := InProgress, attempts := jobs[id].attempts + 1)];
      AddWorkEvent(jobs[id].work, Logged(JobRunningRemark));
    }

    method MarkWorkJobCompleted(id: int, result: RunResult)
      requires id in jobs && jobs[id].work in items
      modifies this
      ensures Model() == old(Model()).MarkCompleted(id, result)
    {
      jobs := jobs[id := jobs[id].(status := Done)];
      AddWorkEvent(jobs[id].work, Finished(id, result));
    }

    method MarkWorkJobFailed(id: int, retryable: bool) returns (status: JobStatus)
      requires id in jobs && jobs[id].work in items
      modifies this
      ensures Model() == old(Model()).MarkFailed(id, retryable) && status == Model().jobs[id].status
    {
      status := if retryable && jobs[id].attempts < jobs[id].maxAttempts then RetryWait else DeadLetter;
      jobs := jobs[id := jobs[id].(status := status)];
      AddWorkEvent(jobs[id].work, Logged(JobFailedRemark));
    }

    method CreateCapabilityProposal(p: int, status: ProposalStatus)
      requires p !in proposals
      modifies this
      ensures Model() == old(Model()).(proposals := old(proposals)[p := Proposal(status, [Opened(status)])])
    {
      proposals := proposals[p := Proposal(status, [Opened(status)])];
    }

    method TransitionCapabilityProposal(p: int, to: ProposalStatus) returns (error: Option<LedgerError>)
      modifies this
      ensures match old(Model()).MoveProposal(p, to)
        case Ok(moved) => error == None && Model() == moved
        case Err(e) => error == Some(e) && unchanged(this)
    {
      if p !in proposals {
        return Some(UnknownProposal);
      }
      if !MayTurn(proposals[p].status, to) {
        return Some(InvalidTransition);
      }
      proposals := proposals[p := Proposal(to, proposals[p].events + [Turned(to)])];
      error := None;
    }

    method AddProposalRemark(p: int)
      requires p in proposals
      modifies this
      ensures Model() == old(Model()).(
        proposals := old(proposals)[p := old(proposals)[p].(events := old(proposals)[p].events + [Remarked])])
    {
      proposals := proposals[p := proposals[p].(events := proposals[p].events + [Remarked])];
    }
  }
}
