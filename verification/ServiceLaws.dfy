/** The services, the workers and the activation keep the laws of the ledger. */
module ServiceLaws {
  import opened Wrappers
  import opened WorkStates
  import opened Ledgers
  import opened LedgerLaws
  import opened WorkQueues
  import opened WorkServices
  import opened CapabilityServices
  import opened Workers
  import A = Activations

  lemma SubmitKeeps(d: Desk, job: int, reachable: bool)
    requires job in d.books.jobs && d.books.jobs[job].work in d.books.items
    ensures Keeps(d.books, Submit(d, job, reachable).0.books, Silent)
  {
    var row := d.books.jobs[job];
    if reachable {
      SetJobKeeps(d.books, job, row.(status := Queued, message := Some(d.queue.counter + 1)), Logged(JobQueuedRemark));
    } else {
      SetJobKeeps(d.books, job, row.(status := EnqueueFailed), Logged(JobEnqueueFailedRemark));
    }
  }

  lemma EnqueueKeeps(d: Desk, work: int, s: Submission)
    requires s.job !in d.books.jobs
    ensures Keeps(d.books, Enqueue(d, work, s).0.books, Silent)
  {
    if work in d.books.items && !d.books.HasActiveJob(work) {
      var created := d.books.CreateJob(s.job, work, s.maxAttempts);
      CreateJobKeeps(d.books, s.job, work, s.maxAttempts);
      SubmitKeeps(d.With(created), s.job, s.reachable);
      ThenKeeps(d.books, created, Enqueue(d, work, s).0.books, Silent, Silent);
    }
  }

  lemma TransitionKeeps(d: Desk, work: int, to: WorkStatus, s: Submission)
    requires s.job !in d.books.jobs
    ensures Keeps(d.books, Transition(d, work, to, s).0.books, AskOf(work, to, None))
  {
    var moved := d.books.Move(work, to, None);
    if moved.Ok? {
      MoveKeeps(d.books, work, to, None);
      if to == Accepted {
        EnqueueKeeps(d.With(moved.value), work, s);
        ThenKeeps(d.books, moved.value, Transition(d, work, to, s).0.books, Silent, Silent);
      }
    }
  }

  lemma RerunKeeps(b: Books, work: int, s: Submission)
    requires s.job !in b.jobs && work in b.items && Retryable(b.items[work].status)
    ensures var running := b.CreateJob(s.job, work, s.maxAttempts).Move(work, Running, Some(s.job));
      running.Ok? && Keeps(b, running.value, Silent)
  {
    var created := b.CreateJob(s.job, work, s.maxAttempts);
    CreateJobKeeps(b, s.job, work, s.maxAttempts);
    MoveKeeps(created, work, Running, Some(s.job));
    ThenKeeps(b, created, created.Move(work, Running, Some(s.job)).value, Silent, Silent);
  }

  lemma ResubmitKeeps(d: Desk, work: int, s: Submission)
    requires s.job !in d.books.jobs && work in d.books.items && Retryable(d.books.items[work].status)
    ensures Keeps(d.books, Resubmit(d, work, s).0.books, Silent)
  {
    var previous := d.books.items[work].status;
    var running := d.books.CreateJob(s.job, work, s.maxAttempts).Move(work, Running, Some(s.job)).value;
    var submitted := Submit(d.With(running), s.job, s.reachable).0.books;
    RerunKeeps(d.books, work, s);
    SubmitKeeps(d.With(running), s.job, s.reachable);
    ThenKeeps(d.books, running, submitted, Silent, Silent);
    if !s.reachable {
      MoveOrNoteKeeps(submitted, work, previous, Some(s.job), RetryStatusRestoreFailed);
      ThenKeeps(d.books, submitted, Resubmit(d, work, s).0.books, Silent, Silent);
    }
  }

  lemma RetryKeeps(d: Desk, work: int, s: Submission)
    requires s.job !in d.books.jobs
    ensures Keeps(d.books, Retry(d, work, s).0.books, Silent)
  {
    if !Retry(d, work, s).1.Refused? && !Retry(d, work, s).1.ActiveJobExists? {
      ResubmitKeeps(d, work, s);
    }
  }

  lemma ChildKeeps(b: Books, work: int, child: int)
    requires child !in b.items && work in b.items
    ensures Keeps(b, b.Open(child, SelfPatch, Some(work), Accepted)
      .Note(work, PromotedToSelfPatch).Note(work, NoteAdded), Silent)
  {
    var created := b.Open(child, SelfPatch, Some(work), Accepted);
    var promoted := created.Note(work, PromotedToSelfPatch);
    OpenKeeps(b, child, SelfPatch, Some(work), Accepted);
    LogKeeps(created, work, Logged(PromotedToSelfPatch));
    LogKeeps(promoted, work, Logged(NoteAdded));
    ThenKeeps(b, created, promoted, Silent, Silent);
    ThenKeeps(b, promoted, promoted.Note(work, NoteAdded), Silent, Silent);
  }

  lemma PromoteKeeps(d: Desk, work: int, listed: seq<int>, child: int, s: Submission)
    requires child !in d.books.items && s.job !in d.books.jobs && IsListing(d.books, work, listed)
    ensures Keeps(d.books, Promote(d, work, listed, child, s).0.books, Silent)
  {
    if Promote(d, work, listed, child, s).0 != d {
      var noted := d.books.Open(child, SelfPatch, Some(work), Accepted)
        .Note(work, PromotedToSelfPatch).Note(work, NoteAdded);
      ChildKeeps(d.books, work, child);
      EnqueueKeeps(d.With(noted), child, s);
      ThenKeeps(d.books, noted, Enqueue(d.With(noted), child, s).0.books, Silent, Silent);
    }
  }

  lemma ProposeKeeps(b: Books, work: int)
    requires work !in b.items && work !in b.proposals
    ensures Keeps(b, Propose(b, work), Silent)
  {
    var created := b.Open(work, SelfPatch, None, WorkStatus.Proposed);
    var paired := created.(proposals := created.proposals[work :=
      Proposal(ProposalStatus.Proposed, [Opened(ProposalStatus.Proposed)])]);
    OpenKeeps(b, work, SelfPatch, None, WorkStatus.Proposed);
    assert ReplayProposal([Opened(ProposalStatus.Proposed)]) == Some(ProposalStatus.Proposed);
    LogKeeps(paired, work, Logged(LinkedCapabilityProposal));
    ThenKeeps(b, created, paired, Silent, Silent);
    ThenKeeps(b, paired, Propose(b, work), Silent, Silent);
  }

  lemma FollowKeeps(b: Books, p: int, to: ProposalStatus)
    requires b.MoveProposal(p, to).Ok? && p in b.items
    ensures Keeps(b, FollowProposal(b.MoveProposal(p, to).value, p, to), Silent)
  {
    var turned := b.MoveProposal(p, to).value;
    MoveProposalKeeps(b, p, to);
    if WorkTarget(to).Some? {
      MoveOrNoteKeeps(turned, p, WorkTarget(to).value, None, ProposalTransition);
    }
    ThenKeeps(b, turned, FollowProposal(turned, p, to), Silent, Silent);
  }

  lemma TurnProposalKeeps(d: Desk, p: int, to: ProposalStatus, s: Submission)
    requires s.job !in d.books.jobs && (p in d.books.proposals ==> p in d.books.items)
    ensures Keeps(d.books, TurnProposal(d, p, to, s).0.books, Silent)
  {
    var turned := d.books.MoveProposal(p, to);
    if turned.Ok? {
      var followed := FollowProposal(turned.value, p, to);
      FollowKeeps(d.books, p, to);
      if followed != TurnProposal(d, p, to, s).0.books {
        EnqueueKeeps(d.With(followed), p, s);
        ThenKeeps(d.books, followed, TurnProposal(d, p, to, s).0.books, Silent, Silent);
      }
    }
  }

  lemma StartKeeps(b: Books, work: int, job: int)
    requires work in b.items
    ensures Keeps(b, StartWork(b, work, job), Silent)
  {
    var kind, status := b.items[work].kind, b.items[work].status;
    if Runnable(kind, status) && kind != SelfPatch && status == Accepted {
      MoveKeeps(b, work, Planned, Some(job));
    } else if Runnable(kind, status) && kind == SelfPatch && status != Running {
      MoveKeeps(b, work, Running, Some(job));
    } else {
      LogKeeps(b, work, Logged(WorkerObservedPlannedWork));
      LogKeeps(b, work, Logged(WorkerResumedRunningWork));
      LogKeeps(b, work, Logged(WorkerObservedNonRunnable));
    }
  }

  lemma BeginKeeps(d: Desk, m: Message)
    requires Addressed(d.books, m)
    ensures Keeps(d.books, Begin(d, m).0.books, Silent)
  {
    var row := d.books.jobs[m.job];
    var running := d.books.MarkRunning(m.job);
    var started := StartWork(running, m.work, m.job);
    SetJobKeeps(d.books, m.job, row.(status := InProgress, attempts := row.attempts + 1), Logged(JobRunningRemark));
    StartKeeps(running, m.work, m.job);
    ThenKeeps(d.books, running, started, Silent, Silent);
    LogKeeps(started, m.work, Logged(JobHeartbeat));
    ThenKeeps(d.books, started, started.Note(m.work, JobHeartbeat), Silent, Silent);
  }

  function AskFor(result: RunResult): Ask {
    if result.PatchReady? then ByJob else Silent
  }

  lemma RecordKeeps(b: Books, work: int, job: int, result: RunResult)
    requires work in b.items
    ensures Keeps(b, RecordResult(b, work, job, result), AskFor(result))
  {
    var noted := b.Note(work, NoteAdded);
    LogKeeps(b, work, Logged(NoteAdded));
    if b.items[work].kind == SelfPatch {
      MoveOrNoteKeeps(noted, work, StatusAfter(result), Some(job), WorkerTransitionSkipped);
      ThenKeeps(b, noted, RecordResult(b, work, job, result), Silent, AskFor(result));
    }
  }

  lemma FinishedKeeps(b: Books, m: Message, result: RunResult)
    requires Addressed(b, m)
    ensures Keeps(b, RecordResult(b, m.work, m.job, result).MarkCompleted(m.job, result), AskFor(result))
  {
    var recorded := RecordResult(b, m.work, m.job, result);
    RecordKeeps(b, m.work, m.job, result);
    SetJobKeeps(recorded, m.job, recorded.jobs[m.job].(status := Done), Finished(m.job, result));
    ThenKeeps(b, recorded, recorded.MarkCompleted(m.job, result), AskFor(result), AskFor(result));
  }

  /** Finishing keeps the laws, except that a ready patch asks for activation. */
  lemma EndKeeps(d: Desk, m: Message, runnable: bool, outcome: RunResult)
    requires Addressed(d.books, m)
    ensures Keeps(d.books, End(d, m, runnable, outcome).books,
                  AskFor(Reported(d.books.items[m.work].kind, runnable, outcome)))
  {
    var result := Reported(d.books.items[m.work].kind, runnable, outcome);
    var ran := if runnable then d.books.Note(m.work, JobHeartbeat) else d.books;
    LogKeeps(d.books, m.work, Logged(JobHeartbeat));
    FinishedKeeps(ran, m, result);
    ThenKeeps(d.books, ran, End(d, m, runnable, outcome).books, Silent, AskFor(result));
  }

  /** A ready patch for an item that waits for no other job is the one activation would take. */
  lemma ReadyTracks(d: Desk, m: Message, runnable: bool, outcome: RunResult)
    requires Addressed(d.books, m) && AllAttributed(d.books)
    requires Reported(d.books.items[m.work].kind, runnable, outcome).PatchReady?
    requires d.books.items[m.work].Unasked()
    ensures AllAttributed(End(d, m, runnable, outcome).books)
  {
    var item := d.books.items[m.work].Add(Logged(JobHeartbeat)).Add(Logged(NoteAdded));
    var after := End(d, m, runnable, outcome).books;
    if MayBecome(item.status, WaitingApproval) {
      assert after.items[m.work] == item.Become(WaitingApproval, Some(m.job)).Add(Finished(m.job, outcome));
      FinishAttributes(item.Become(WaitingApproval, Some(m.job)), m.job, outcome);
    } else {
      AddKeeps(d.books.items[m.work], Logged(JobHeartbeat));
      AddKeeps(d.books.items[m.work].Add(Logged(JobHeartbeat)), Logged(NoteAdded));
      AddKeeps(item, Logged(WorkerTransitionSkipped));
      AddKeeps(item.Add(Logged(WorkerTransitionSkipped)), Finished(m.job, outcome));
      assert after.items[m.work] == item.Add(Logged(WorkerTransitionSkipped)).Add(Finished(m.job, outcome));
      assert after.items[m.work].Unasked();
    }
  }

  lemma FinishAttributes(asking: Item, job: int, result: RunResult)
    requires result.PatchReady? && asking.events != []
      && asking.events[|asking.events| - 1] == Moved(WaitingApproval, Some(job))
    ensures asking.Add(Finished(job, result)).Attributed()
  {
    assert asking.Add(Finished(job, result)).events[..|asking.events|] == asking.events;
  }

  lemma CollapseKeeps(d: Desk, m: Message)
    requires Addressed(d.books, m)
    ensures Keeps(d.books, Collapse(d, m).books, Silent)
  {
    var row := d.books.jobs[m.job];
    var failed := d.books.MarkFailed(m.job, m.kind != SelfPatch);
    SetJobKeeps(d.books, m.job, row.(status := AfterFailure(row, m.kind != SelfPatch)), Logged(JobFailedRemark));
    if m.kind == SelfPatch {
      var logged := failed.Note(m.work, SelfPatchFailed);
      var noted := logged.Note(m.work, NoteAdded);
      LogKeeps(failed, m.work, Logged(SelfPatchFailed));
      LogKeeps(logged, m.work, Logged(NoteAdded));
      MoveOrNoteKeeps(noted, m.work, Reviewing, Some(m.job), WorkerTransitionSkipped);
      ThenKeeps(d.books, failed, logged, Silent, Silent);
      ThenKeeps(d.books, logged, noted, Silent, Silent);
      ThenKeeps(d.books, noted, Collapse(d, m).books, Silent, Silent);
    }
  }

  lemma RejectionKeeps(b: Books, work: int, remark: Remark)
    requires work in b.items
    ensures Keeps(b, A.RecordRejection(b, work, remark), Silent)
  {
    LogKeeps(b, work, Logged(remark));
    MoveOrNoteKeeps(b.Note(work, remark), work, Reviewing, None, ActivationTransitionSkipped);
    ThenKeeps(b, b.Note(work, remark), A.RecordRejection(b, work, remark), Silent, Silent);
  }

  lemma ParentKeeps(b: Books, work: int)
    requires work in b.items
    ensures Keeps(b, A.CompleteParent(b, work), Silent)
  {
    var parent := b.items[work].parent;
    if parent.Some? && parent.value in b.items {
      MoveOrNoteKeeps(b, parent.value, Completed, None, ActivationTransitionSkipped);
    }
    LogKeeps(b, work, Logged(ParentCompletionSkipped));
  }

  lemma ActiveKeeps(b: Books, p: int)
    ensures Keeps(b, A.ActivateProposal(b, p), Silent)
  {
    if p in b.proposals {
      if b.MoveProposal(p, Active).Ok? {
        MoveProposalKeeps(b, p, Active);
      } else if b.proposals[p].Sound() {
        RemarkKeeps(b.proposals[p]);
      }
    }
  }

  lemma SuccessKeeps(b: Books, work: int)
    requires work in b.items
    ensures Keeps(b, A.RecordSuccess(b, work), Silent)
  {
    var verified := b.Note(work, ActivationVerified);
    var noted := verified.Note(work, Activated);
    var completed := noted.MoveOrNote(work, Completed, None, ActivationTransitionSkipped);
    LogKeeps(b, work, Logged(ActivationVerified));
    LogKeeps(verified, work, Logged(Activated));
    MoveOrNoteKeeps(noted, work, Completed, None, ActivationTransitionSkipped);
    ParentKeeps(completed, work);
    ActiveKeeps(A.CompleteParent(completed, work), work);
    ThenKeeps(b, verified, noted, Silent, Silent);
    ThenKeeps(b, noted, completed, Silent, Silent);
    ThenKeeps(b, completed, A.CompleteParent(completed, work), Silent, Silent);
    ThenKeeps(b, A.CompleteParent(completed, work), A.RecordSuccess(b, work), Silent, Silent);
  }

  lemma ActivationRecordKeeps(b: Books, work: int, verdict: A.Verdict)
    requires work in b.items
    ensures Keeps(b, A.Record(b, work, verdict), Silent)
  {
    match verdict {
      case FailedAt(_) => RejectionKeeps(b, work, ActivationFailed);
      case ReloadFailed => RejectionKeeps(b, work, ActivationReloadFailed);
      case Succeeded => SuccessKeeps(b, work);
      case _ =>
    }
  }

  lemma ActivateKeeps(config: A.Config, b: Books, repo: A.RepoData, work: int, o: A.Outcomes)
    ensures Keeps(b, A.Activate(config, b, repo, work, o).0, Silent)
  {
    if A.Activatable(b, work) {
      ActivationRecordKeeps(b, work, A.Activate(config, b, repo, work, o).2);
    }
  }
}
