/** What each service call and worker step does to the item it is about, in any state: its status, its log, its job. */
module ServiceResults {
  import opened Wrappers
  import opened WorkStates
  import opened Ledgers
  import opened WorkQueues
  import opened WorkServices
  import opened CapabilityServices
  import opened Workers
  import A = Activations

  /** The item has the status, and its log has gained the tail. */
  predicate Became(b: Books, c: Books, work: int, status: WorkStatus, tail: seq<Event>)
    requires work in b.items
  {
    && work in c.items && c.items[work].status == status && c.items[work].events == b.items[work].events + tail
    && c.items[work].kind == b.items[work].kind && c.items[work].parent == b.items[work].parent
  }

  /** No other item is touched. */
  ghost predicate OnlyItem(b: Books, c: Books, work: int) {
    forall w :: w in b.items && w != work ==> w in c.items && c.items[w] == b.items[w]
  }

  // ---------- the worker ----------

  /** Whether a worker may run the item, and where starting it leads. */
  function Started(kind: WorkType, s: WorkStatus): (bool, WorkStatus) {
    match s
    case Accepted => (true, if kind == SelfPatch then Running else Planned)
    case Planned => (true, if kind == SelfPatch then Running else Planned)
    case Running => (true, Running)
    case Blocked => (kind != SelfPatch, Blocked)
    case WaitingApproval => (kind != SelfPatch, WaitingApproval)
    case _ => (false, s)
  }

  function StartRemark(kind: WorkType, s: WorkStatus, job: int): Event {
    if !Started(kind, s).0 then Logged(WorkerObservedNonRunnable)
    else if Started(kind, s).1 != s then Moved(Started(kind, s).1, Some(job))
    else if kind == SelfPatch then Logged(WorkerResumedRunningWork) else Logged(WorkerObservedPlannedWork)
  }

  lemma StartInAnyState(d: Desk, m: Message)
    requires Addressed(d.books, m)
    ensures var item, row, after := d.books.items[m.work], d.books.jobs[m.job], Begin(d, m).0;
      && Begin(d, m).1 == Started(item.kind, item.status).0
      && Became(d.books, after.books, m.work, Started(item.kind, item.status).1,
                [Logged(JobRunningRemark)] + [StartRemark(item.kind, item.status, m.job)]
                + if Begin(d, m).1 then [Logged(JobHeartbeat)] else [])
      && OnlyItem(d.books, after.books, m.work) && after.queue == d.queue && after.books.proposals == d.books.proposals
      && after.books.jobs == d.books.jobs[m.job := row.(status := InProgress, attempts := row.attempts + 1)]
  {
    var item := d.books.items[m.work];
    var tail := [Logged(JobRunningRemark)] + [StartRemark(item.kind, item.status, m.job)];
    assert item.events + [Logged(JobRunningRemark)] + [StartRemark(item.kind, item.status, m.job)] == item.events
      + tail;
    assert tail + [Logged(JobHeartbeat)] == [Logged(JobRunningRemark)] + [StartRemark(item.kind, item.status, m.job)]
      + [Logged(JobHeartbeat)];
    assert item.events + tail + [Logged(JobHeartbeat)] == item.events + (tail + [Logged(JobHeartbeat)]);
    assert tail + [] == tail;
  }

  /** What is reported for a run: that it was ignored, that other work was dispatched, or the self-patch result. */
  function Report(kind: WorkType, runnable: bool, outcome: RunResult): RunResult {
    if !runnable then Ignored else if kind == SelfPatch then outcome else Dispatched
  }

  /** Where a report sends a self-patch item that is running, accepted or planned. */
  function Destination(result: RunResult): WorkStatus {
    if result.PatchReady? then WaitingApproval
    else if result == TestFailed || result == DiffCheckFailed || result == CodexFailedNoPatch then Reviewing
    else Blocked
  }

  /** A run's end completes its job and acknowledges its message. It moves a self-patch item to the report's
      destination if the table allows that, and no other item. */
  lemma EndInAnyState(d: Desk, m: Message, runnable: bool, outcome: RunResult)
    requires Addressed(d.books, m)
    ensures var item, row, after := d.books.items[m.work], d.books.jobs[m.job], End(d, m, runnable, outcome);
      var result := Report(item.kind, runnable, outcome);
      var moves := item.kind == SelfPatch && MayBecome(item.status, Destination(result));
      && Became(d.books, after.books, m.work, if moves then Destination(result) else item.status,
                (if runnable then [Logged(JobHeartbeat)] else []) + [Logged(NoteAdded)]
                + (if moves then [Moved(Destination(result), Some(m.job))]
                   else if item.kind == SelfPatch then [Logged(WorkerTransitionSkipped)] else [])
                + [Finished(m.job, result)])
      && OnlyItem(d.books, after.books, m.work) && after.books.proposals == d.books.proposals
      && after.books.jobs == d.books.jobs[m.job := row.(status := Done)]
      && after.queue == d.queue.Ack(m)
  {
    var item := d.books.items[m.work];
    var result := Report(item.kind, runnable, outcome);
    var moves := item.kind == SelfPatch && MayBecome(item.status, Destination(result));
    var heart := if runnable then [Logged(JobHeartbeat)] else [];
    var move := if moves then [Moved(Destination(result), Some(m.job))]
                else if item.kind == SelfPatch then [Logged(WorkerTransitionSkipped)] else [];
    assert item.events + heart + [Logged(NoteAdded)] + move + [Finished(m.job, result)]
        == item.events + (heart + [Logged(NoteAdded)] + move + [Finished(m.job, result)]);
    EndLog(d, m, runnable, outcome, heart, move);
  }

  lemma EndLog(d: Desk, m: Message, runnable: bool, outcome: RunResult, heart: seq<Event>, move: seq<Event>)
    requires Addressed(d.books, m)
    requires heart == if runnable then [Logged(JobHeartbeat)] else []
    requires var item, result := d.books.items[m.work], Report(d.books.items[m.work].kind, runnable, outcome);
      move == if item.kind != SelfPatch then []
              else if MayBecome(item.status, Destination(result)) then [Moved(Destination(result), Some(m.job))]
              else [Logged(WorkerTransitionSkipped)]
    ensures End(d, m, runnable, outcome).books.items[m.work].events
         == d.books.items[m.work].events + heart + [Logged(NoteAdded)] + move
            + [Finished(m.job, Report(d.books.items[m.work].kind, runnable, outcome))]
  {
    assert d.books.items[m.work].events + [] == d.books.items[m.work].events;
    var noted := d.books.items[m.work].events + heart + [Logged(NoteAdded)];
    assert noted + [] == noted;
  }

  /** A run that breaks off: what the log of the item says, whether the move to reviewing is possible or not. */
  lemma CollapseInAnyState(d: Desk, m: Message)
    requires Addressed(d.books, m)
    ensures var item, after := d.books.items[m.work], Collapse(d, m);
      var moves := m.kind == SelfPatch && MayBecome(item.status, Reviewing);
      && Became(d.books, after.books, m.work, if moves then Reviewing else item.status,
                [Logged(JobFailedRemark)]
                + (if m.kind != SelfPatch then []
                   else [Logged(SelfPatchFailed)] + [Logged(NoteAdded)]
                        + if moves then [Moved(Reviewing, Some(m.job))] else [Logged(WorkerTransitionSkipped)]))
      && OnlyItem(d.books, after.books, m.work) && after.books.proposals == d.books.proposals
      && (forall j :: j in d.books.jobs && j != m.job ==>
            j in after.books.jobs && after.books.jobs[j] == d.books.jobs[j])
      && after.queue.waiting == d.queue.waiting
  {
    var item := d.books.items[m.work];
    var move := if MayBecome(item.status, Reviewing) then [Moved(Reviewing, Some(m.job))]
                else [Logged(WorkerTransitionSkipped)];
    if m.kind == SelfPatch {
      assert item.events + [Logged(JobFailedRemark)] + [Logged(SelfPatchFailed)] + [Logged(NoteAdded)] + move
          == item.events + ([Logged(JobFailedRemark)] + ([Logged(SelfPatchFailed)] + [Logged(NoteAdded)] + move));
    } else {
      assert [Logged(JobFailedRemark)] + [] == [Logged(JobFailedRemark)];
    }
  }

  // ---------- users ----------

  /** A job that is submitted: queued with the next message, or marked as not enqueued. */
  predicate Submitted(d: Desk, after: Desk, work: int, s: Submission)
    requires work in d.books.items
  {
    var kind := d.books.items[work].kind;
    && after.books.jobs == d.books.jobs[s.job := Job(work, kind, if s.reachable then Queued else EnqueueFailed, 0,
                                                     Max(1, s.maxAttempts),
                                                       if s.reachable then Some(d.queue.counter + 1) else None)]
    && after.queue == (if s.reachable
                       then d.queue.(waiting :=
                         d.queue.waiting + [Message(QueueOf(kind), d.queue.counter + 1, s.job, work, kind)],
                                     counter := d.queue.counter + 1)
                       else d.queue)
  }

  function QueueOf(kind: WorkType): QueueName {
    if kind == SelfPatch then SelfPatchQueue else if kind == RuntimeTask then RuntimeTaskQueue else ExternalWorkQueue
  }

  function SubmitRemark(s: Submission): Event {
    if s.reachable then Logged(JobQueuedRemark) else Logged(JobEnqueueFailedRemark)
  }

  lemma EnqueueInAnyState(d: Desk, work: int, s: Submission)
    requires s.job !in d.books.jobs && work in d.books.items && !d.books.HasActiveJob(work)
    ensures var (after, reply) := Enqueue(d, work, s);
      && reply == (if s.reachable then QueuedAs(d.queue.counter + 1) else NotQueued)
      && Submitted(d, after, work, s)
      && Became(d.books, after.books, work, d.books.items[work].status, [Logged(JobCreatedRemark)] + [SubmitRemark(s)])
      && OnlyItem(d.books, after.books, work) && after.books.proposals == d.books.proposals
  {
    var events := d.books.items[work].events;
    assert events + [Logged(JobCreatedRemark)] + [SubmitRemark(s)] == events
      + ([Logged(JobCreatedRemark)] + [SubmitRemark(s)]);
  }

  lemma ActiveIsUnsettled(s: JobStatus)
    ensures IsActive(s) <==> s !in {Done, DeadLetter, EnqueueFailed}
  {
    match s
    case Fresh =>
    case _ =>
  }

  /** Enqueueing is declined exactly while a job of the item is neither completed, dead nor unpublished. */
  lemma EnqueueIsDeclinedExactly(d: Desk, work: int, s: Submission)
    requires s.job !in d.books.jobs
    ensures Enqueue(d, work, s).1 == ActiveJobExists
       <==> work in d.books.items
            && exists j :: j in d.books.jobs && d.books.jobs[j].work == work
                           && d.books.jobs[j].status !in {Done, DeadLetter, EnqueueFailed}
  {
    forall j | j in d.books.jobs
      ensures IsActive(d.books.jobs[j].status) <==> d.books.jobs[j].status !in {Done, DeadLetter, EnqueueFailed}
    {
      ActiveIsUnsettled(d.books.jobs[j].status);
    }
  }

  lemma EnqueueOfUnknownWork(d: Desk, work: int, s: Submission)
    requires s.job !in d.books.jobs && work !in d.books.items
    ensures Enqueue(d, work, s) == (d, Refused(NoSuchWork))
  {
  }

  /** Why a turn of a proposal is refused. */
  lemma TurnRefusals(d: Desk, p: int, to: ProposalStatus, s: Submission)
    requires s.job !in d.books.jobs && (p in d.books.proposals ==> p in d.books.items)
    ensures TurnProposal(d, p, to, s).1 == Refused(NoSuchProposal) <==> p !in d.books.proposals
    ensures TurnProposal(d, p, to, s).1 == Refused(TransitionNotAllowed)
       <==> p in d.books.proposals && !MayTurn(d.books.proposals[p].status, to)
  {
  }

  /** Where an allowed turn asks the item to go. */
  function Asked(to: ProposalStatus): Option<WorkStatus> {
    if to == ApprovedForDev then Some(Accepted)
    else if to == ProposalStatus.Deferred then Some(WorkStatus.Deferred)
    else if to == ProposalStatus.Rejected then Some(WorkStatus.Rejected) else None
  }

  /** An allowed turn is logged with the proposal. Its item follows if it can, else that it cannot is remarked; and
      an item that becomes accepted without an active job gets one. */
  lemma TurnInAnyState(d: Desk, p: int, to: ProposalStatus, s: Submission)
    requires s.job !in d.books.jobs && p in d.books.proposals && p in d.books.items
    requires MayTurn(d.books.proposals[p].status, to)
    ensures var item, after := d.books.items[p], TurnProposal(d, p, to, s).0;
      var follows := Asked(to) != None && MayBecome(item.status, Asked(to).value);
      var enqueues := follows && Asked(to) == Some(Accepted) && !d.books.HasActiveJob(p);
      && after.books.proposals == d.books.proposals[p := Proposal(to, d.books.proposals[p].events + [Turned(to)])]
      && Became(d.books, after.books, p, if follows then Asked(to).value else item.status,
                (if Asked(to) == None then [] else if follows then [Moved(Asked(to).value, None)]
                 else [Logged(ProposalTransition)])
                + if enqueues then [Logged(JobCreatedRemark)] + [SubmitRemark(s)] else [])
      && OnlyItem(d.books, after.books, p)
      && (enqueues ==> Submitted(d, after, p, s))
      && (!enqueues ==> after.books.jobs == d.books.jobs && after.queue == d.queue)
  {
    var item := d.books.items[p];
    var turned := d.books.MoveProposal(p, to).value;
    var followed := FollowProposal(turned, p, to);
    assert followed.jobs == d.books.jobs && (followed.HasActiveJob(p) <==> d.books.HasActiveJob(p));
    var move := if Asked(to) == None then [] else if MayBecome(item.status, Asked(to).value) then
                  [Moved(Asked(to).value, None)] else [Logged(ProposalTransition)];
    assert item.events + [] == item.events && move + [] == move;
    assert followed.items[p].events == item.events + move;
    if to == ApprovedForDev && MayBecome(item.status, Accepted) && !followed.HasActiveJob(p) {
      EnqueueInAnyState(d.With(followed), p, s);
      assert item.events + move + ([Logged(JobCreatedRemark)] + [SubmitRemark(s)])
          == item.events + (move + ([Logged(JobCreatedRemark)] + [SubmitRemark(s)]));
    }
  }

  lemma MoveInAnyState(d: Desk, work: int, to: WorkStatus, s: Submission)
    requires s.job !in d.books.jobs
    ensures var (after, reply) := Transition(d, work, to, s);
      && (reply == Refused(NoSuchWork) <==> work !in d.books.items)
      && (reply == Refused(TransitionNotAllowed) <==>
            work in d.books.items && !MayBecome(d.books.items[work].status, to))
      && (work in d.books.items && MayBecome(d.books.items[work].status, to) && to != Accepted ==>
            && reply == Changed && after.queue == d.queue && after.books.jobs == d.books.jobs
            && Became(d.books, after.books, work, to, [Moved(to, None)]) && OnlyItem(d.books, after.books, work))
      && (work in d.books.items && MayBecome(d.books.items[work].status, to) && to == Accepted ==>
            (after, reply) == Enqueue(d.With(d.books.Move(work, to, None).value), work, s))
  {
  }

  /** A retry whose message is not published ends where it began, with both moves in the log. */
  lemma FailedRetryIsLogged(d: Desk, work: int, s: Submission)
    requires s.job !in d.books.jobs && work in d.books.items && d.books.items[work].kind == SelfPatch
    requires d.books.items[work].status in {Reviewing, Blocked, WorkStatus.Failed} && !d.books.HasActiveJob(work)
    requires !s.reachable
    ensures var before, after := d.books.items[work], Retry(d, work, s).0;
      && Submitted(d, after, work, s)
      && Became(d.books, after.books, work, before.status,
                [Logged(JobCreatedRemark)] + [Moved(Running, Some(s.job))] + [Logged(JobEnqueueFailedRemark)]
                + [Moved(before.status, Some(s.job))])
  {
    var before := d.books.items[work];
    assert MayBecome(Running, before.status);
    assert before.events + [Logged(JobCreatedRemark)] + [Moved(Running, Some(s.job))] + [Logged(JobEnqueueFailedRemark)]
           + [Moved(before.status, Some(s.job))]
        == before.events + ([Logged(JobCreatedRemark)] + [Moved(Running, Some(s.job))]
          + [Logged(JobEnqueueFailedRemark)]
                            + [Moved(before.status, Some(s.job))]);
  }

  lemma RetryRefusals(d: Desk, work: int, s: Submission)
    requires s.job !in d.books.jobs
    ensures Retry(d, work, s).1 == Refused(NoSuchWork) <==> work !in d.books.items
    ensures Retry(d, work, s).1 == Refused(WrongType)
      <==> work in d.books.items && d.books.items[work].kind != SelfPatch
    ensures Retry(d, work, s).1 == Refused(WrongStatus)
       <==> work in d.books.items && d.books.items[work].kind == SelfPatch
            && d.books.items[work].status !in {Reviewing, Blocked, WorkStatus.Failed}
  {
  }

  predicate IsUsable(s: WorkStatus) {
    s !in {WorkStatus.Rejected, Cancelled, WorkStatus.Failed, WorkStatus.Archived}
  }

  /** When a promotion is refused, when it finds a usable child, and what it creates otherwise. */
  lemma PromotionInAnyState(d: Desk, work: int, listed: seq<int>, child: int, s: Submission)
    requires child !in d.books.items && s.job !in d.books.jobs && IsListing(d.books, work, listed)
    requires forall j :: j in d.books.jobs ==> d.books.jobs[j].work in d.books.items
    ensures var (after, reply) := Promote(d, work, listed, child, s);
      var usable := exists i :: 0 <= i < |listed| && IsUsable(d.books.items[listed[i]].status);
      && (reply == Refused(NoSuchWork) <==> work !in d.books.items)
      && (reply == Refused(WrongType) <==> work in d.books.items && d.books.items[work].kind != ExternalWork)
      && (reply == Refused(WrongStatus) <==>
            work in d.books.items && d.books.items[work].kind == ExternalWork
            && d.books.items[work].status in {WorkStatus.Rejected, Cancelled, Completed, WorkStatus.Archived})
      && (!reply.Refused? ==> (reply.ChildExists? <==> usable))
      && (!reply.Refused? && !reply.ChildExists? ==>
            && Became(d.books, after.books, work, d.books.items[work].status,
                      [Logged(PromotedToSelfPatch)] + [Logged(NoteAdded)])
            && child in after.books.items
            && after.books.items[child].kind == SelfPatch && after.books.items[child].parent == Some(work)
            && after.books.items[child].status == Accepted
            && after.books.items[child].events
               == [Created(Accepted)] + [Logged(JobCreatedRemark)] + [SubmitRemark(s)]
            && (reply.QueuedAs? <==> s.reachable))
  {
    if work in d.books.items && d.books.items[work].kind == ExternalWork && Promotable(d.books.items[work].status)
       && FirstReusable(d.books, listed).None? {
      var noted := d.books.Open(child, SelfPatch, Some(work), Accepted).Note(work, PromotedToSelfPatch).Note(work,
        NoteAdded);
      assert !noted.HasActiveJob(child);
      EnqueueInAnyState(d.With(noted), child, s);
      assert d.books.items[work].events + [Logged(PromotedToSelfPatch)] + [Logged(NoteAdded)]
          == d.books.items[work].events + ([Logged(PromotedToSelfPatch)] + [Logged(NoteAdded)]);
      assert [Created(Accepted)] + ([Logged(JobCreatedRemark)] + [SubmitRemark(s)])
          == [Created(Accepted)] + [Logged(JobCreatedRemark)] + [SubmitRemark(s)];
    }
  }

  lemma ProposalInAnyState(b: Books, work: int)
    requires work !in b.items && work !in b.proposals
    ensures var c := Propose(b, work);
      && c.items == b.items[work := Item(SelfPatch, None, WorkStatus.Proposed,
                                         [Created(WorkStatus.Proposed)] + [Logged(LinkedCapabilityProposal)])]
      && c.proposals == b.proposals[work := Proposal(ProposalStatus.Proposed, [Opened(ProposalStatus.Proposed)])]
      && c.jobs == b.jobs
  {
  }

  // ---------- activation ----------

  /** What an activation that succeeds leaves in the item's own log, and what becomes of an external parent. */
  lemma SuccessIsRecorded(b: Books, work: int)
    requires work in b.items && b.items[work].status == WaitingApproval
    requires b.items[work].parent.Some? ==> b.items[work].parent.value != work
    ensures var c, parent := A.RecordSuccess(b, work), b.items[work].parent;
      && Became(b, c, work, Completed,
                [Logged(ActivationVerified)] + [Logged(Activated)] + [Moved(Completed, None)]
                + if parent.Some? && parent.value !in b.items then [Logged(ParentCompletionSkipped)] else [])
      && (parent.Some? && parent.value in b.items ==>
            if b.items[parent.value].kind != ExternalWork then
              parent.value in c.items && c.items[parent.value] == b.items[parent.value]
            else if MayBecome(b.items[parent.value].status, Completed) then
              Became(b, c, parent.value, Completed, [Moved(Completed, None)])
            else
              Became(b, c, parent.value, b.items[parent.value].status, [Logged(ActivationTransitionSkipped)]))
      && c.jobs == b.jobs
  {
    var events := b.items[work].events;
    var tail := [Logged(ActivationVerified)] + [Logged(Activated)] + [Moved(Completed, None)];
    assert events + [Logged(ActivationVerified)] + [Logged(Activated)] + [Moved(Completed, None)] == events + tail;
    assert tail + [] == tail;
    assert events + tail + [Logged(ParentCompletionSkipped)] == events + (tail + [Logged(ParentCompletionSkipped)]);
  }

  /** Its own proposal becomes active if it was approved, and else is only remarked upon. */
  lemma ProposalIsRecorded(b: Books, work: int)
    requires work in b.items
    ensures var c := A.RecordSuccess(b, work);
      && (forall p :: p in b.proposals && p != work ==> p in c.proposals && c.proposals[p] == b.proposals[p])
      && (work in b.proposals ==>
            && work in c.proposals
            && c.proposals[work] == if b.proposals[work].status == ApprovedForDev
                                    then Proposal(Active, b.proposals[work].events + [Turned(Active)])
                                    else Proposal(b.proposals[work].status, b.proposals[work].events + [Remarked]))
  {
  }

  /** An activation of what cannot be activated is refused and changes nothing. */
  lemma UnactivatableIsRefused(config: A.Config, b: Books, repo: A.RepoData, work: int, o: A.Outcomes)
    requires work !in b.items || b.items[work].status != WaitingApproval || LatestPatch(b.items[work].events).None?
    ensures A.Activate(config, b, repo, work, o) == (b, repo, A.Refused)
  {
  }
}
