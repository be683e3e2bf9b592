/** What single operations achieve, and a whole journey from a proposal to a commit. */
module Journeys {
  import opened Wrappers
  import opened WorkStates
  import opened Patches
  import opened Ledgers
  import opened WorkQueues
  import opened WorkServices
  import opened CapabilityServices
  import opened Workers
  import opened Deliveries
  import opened Protocols
  import opened Safety
  import A = Activations

  /** Enqueueing an item without an active job gives it one queued job and one message for it at the end of the
      queue, or, if the queue is out of reach, a job that is not active. The item keeps its status. */
  lemma EnqueueDelivers(d: Desk, work: int, s: Submission)
    requires s.job !in d.books.jobs && work in d.books.items && !d.books.HasActiveJob(work)
    ensures var (after, reply) := Enqueue(d, work, s);
      var kind := d.books.items[work].kind;
      && after.books.items[work].status == d.books.items[work].status
      && s.job in after.books.jobs && after.books.jobs[s.job].work == work && after.books.jobs[s.job].kind == kind
      && after.books.jobs[s.job].attempts == 0 && after.books.jobs[s.job].maxAttempts >= 1
      && if s.reachable then
           && reply == QueuedAs(d.queue.counter + 1)
           && after.books.jobs[s.job].status == Queued && after.books.HasActiveJob(work)
           && after.queue.waiting == d.queue.waiting + [Message(QueueFor(kind), d.queue.counter + 1, s.job, work, kind)]
         else
           reply == NotQueued && after.books.jobs[s.job].status == EnqueueFailed && !after.books.HasActiveJob(work)
           && after.queue == d.queue
  {
    var after := Enqueue(d, work, s).0;
    assert s.job in after.books.jobs;
  }

  /** A promotion leaves the parent's status alone and gives it an accepted self-patch child, queued if possible. */
  lemma PromotionQueuesChild(d: Desk, work: int, listed: seq<int>, child: int, s: Submission)
    requires child !in d.books.items && s.job !in d.books.jobs && IsListing(d.books, work, listed)
    requires forall j :: j in d.books.jobs ==> d.books.jobs[j].work in d.books.items
    requires work in d.books.items && d.books.items[work].kind == ExternalWork && Promotable(d.books.items[work].status)
    requires forall i :: 0 <= i < |listed| ==> !Reusable(d.books.items[listed[i]].status)
    ensures var (after, reply) := Promote(d, work, listed, child, s);
      && child in after.books.items && IsChild(after.books, child, work) && after.books.items[child].status == Accepted
      && after.books.items[work].status == d.books.items[work].status
      && after.books.HasActiveJob(child) == s.reachable
  {
    var noted := d.books.Open(child, SelfPatch, Some(work), Accepted)
      .Note(work, PromotedToSelfPatch).Note(work, NoteAdded);
    assert FirstReusable(d.books, listed) == None;
    assert !noted.HasActiveJob(child);
    EnqueueDelivers(d.With(noted), child, s);
  }

  /** The parent of an activated item is completed if it is external work and the table allows it. */
  predicate ParentFollows(b: Books, after: Books, parent: int) {
    parent in b.items ==>
      && parent in after.items
      && after.items[parent].status == if b.items[parent].kind == ExternalWork
           && MayBecome(b.items[parent].status, Completed)
                                       then Completed else b.items[parent].status
  }

  predicate ProposalFollows(b: Books, after: Books, p: int) {
    p in b.proposals ==>
      && p in after.proposals
      && after.proposals[p].status == if b.proposals[p].status == ApprovedForDev then Active else b.proposals[p].status
  }

  /** A successful activation completes the item, and with it an external parent and its own proposal where the
      tables allow it. */
  lemma SuccessSpreads(b: Books, work: int)
    requires work in b.items && b.items[work].status == WaitingApproval && b.items[work].parent != Some(work)
    ensures var after := A.RecordSuccess(b, work);
      && work in after.items && after.items[work].status == Completed
      && (b.items[work].parent.Some? ==> ParentFollows(b, after, b.items[work].parent.value))
      && ProposalFollows(b, after, work)
  {
  }

  /** A worker never changes the status of other than self-patch work, except that it plans accepted work. */
  lemma ExternalWorkIsOnlyPlanned(d: Desk, m: Message, runnable: bool, outcome: RunResult)
    requires Addressed(d.books, m) && d.books.items[m.work].kind != SelfPatch && m.kind == d.books.items[m.work].kind
    ensures var before := d.books.items[m.work].status;
      && Begin(d, m).0.books.items[m.work].status == (if before == Accepted then Planned else before)
      && End(d, m, runnable, outcome).books.items[m.work].status == before
      && Collapse(d, m).books.items[m.work].status == before
  {
  }

  /** A retry is taken up exactly for a self-patch item in review, blocked or failed, without an active job. If the
      queue is in reach the item then runs again with a new queued job. */
  lemma RetryIsTakenUpExactly(d: Desk, work: int, s: Submission)
    requires s.job !in d.books.jobs
    ensures var (after, reply) := Retry(d, work, s);
      && (reply.Refused? || reply.ActiveJobExists? <==>
            !(work in d.books.items && d.books.items[work].kind == SelfPatch && !d.books.HasActiveJob(work)
              && (d.books.items[work].status == Reviewing || d.books.items[work].status == Blocked
                  || d.books.items[work].status == WorkStatus.Failed)))
      && (reply.QueuedAs? ==>
            && work in after.books.items && after.books.items[work].status == Running && after.books.HasActiveJob(work)
            && s.job in after.books.jobs && after.books.jobs[s.job].status == Queued
            && after.queue == d.queue.Publish(SelfPatchQueue, s.job, work, SelfPatch))
  {
    var (after, reply) := Retry(d, work, s);
    if reply.QueuedAs? {
      assert after.books.jobs[s.job].status == Queued && after.books.jobs[s.job].work == work;
    }
  }

  /** What becomes of a proposal's item when the proposal is turned. */
  function ItemAfterTurn(status: WorkStatus, to: ProposalStatus): WorkStatus {
    if to == ApprovedForDev && status == WorkStatus.Proposed then Accepted
    else if to == ProposalStatus.Deferred && status == WorkStatus.Proposed then WorkStatus.Deferred
    else if to == ProposalStatus.Rejected && (status == WorkStatus.Proposed || status == WaitingApproval)
         then WorkStatus.Rejected
    else status
  }

  lemma FollowMovesItem(b: Books, p: int, to: ProposalStatus)
    requires p in b.items
    ensures p in FollowProposal(b, p, to).items
    ensures FollowProposal(b, p, to).items[p].status == ItemAfterTurn(b.items[p].status, to)
    ensures FollowProposal(b, p, to).jobs == b.jobs && FollowProposal(b, p, to).proposals == b.proposals
  {
  }

  lemma EnqueueSpares(d: Desk, work: int, s: Submission)
    requires s.job !in d.books.jobs && work in d.books.items
    ensures var after := Enqueue(d, work, s).0;
      && work in after.books.items && after.books.items[work].status == d.books.items[work].status
      && after.books.proposals == d.books.proposals
      && (after.queue != d.queue <==> !d.books.HasActiveJob(work) && s.reachable)
  {
  }

  /** A turn that the table allows moves the proposal, and takes its item along where that is possible. An approval
      enqueues the item exactly if it becomes accepted and has no active job. */
  lemma TurnTakesItemAlong(d: Desk, p: int, to: ProposalStatus, s: Submission)
    requires s.job !in d.books.jobs && p in d.books.proposals && p in d.books.items
    requires MayTurn(d.books.proposals[p].status, to)
    ensures var after := TurnProposal(d, p, to, s).0;
      && p in after.books.proposals && after.books.proposals[p].status == to
      && p in after.books.items
      && after.books.items[p].status == ItemAfterTurn(d.books.items[p].status, to)
      && (after.queue != d.queue <==> to == ApprovedForDev && d.books.items[p].status == WorkStatus.Proposed
                                      && !d.books.HasActiveJob(p) && s.reachable)
  {
    var turned := d.books.MoveProposal(p, to).value;
    var followed := FollowProposal(turned, p, to);
    FollowMovesItem(turned, p, to);
    assert followed.HasActiveJob(p) <==> d.books.HasActiveJob(p);
    EnqueueSpares(d.With(followed), p, s);
  }

  /** A self-patch run that breaks down kills its job at once, sends a running item to review and says so in its log;
      the status of other work stays, whether its job waits or is dead. */
  lemma BreakdownIsReviewed(d: Desk, m: Message)
    requires Addressed(d.books, m) && m.kind == d.books.items[m.work].kind
    ensures var before, after := d.books.items[m.work], Collapse(d, m);
      && m.work in after.books.items && m.job in after.books.jobs
      && if m.kind == SelfPatch then
           && after.books.jobs[m.job].status == DeadLetter && m.id in after.queue.acked
           && after.queue.deadLetters == d.queue.deadLetters + [m.job]
           && (before.status == Running || before.status == WaitingApproval ==>
                 && after.books.items[m.work].status == Reviewing
                 && after.books.items[m.work].events == before.events
                      + [Logged(JobFailedRemark)] + [Logged(SelfPatchFailed)] + [Logged(NoteAdded)]
                      + [Moved(Reviewing, Some(m.job))])
           && (before.status != Running && before.status != WaitingApproval ==>
                 after.books.items[m.work].status == before.status)
         else
           after.books.items[m.work] == before.Add(Logged(JobFailedRemark))
  {
  }

  /** A note changes the log of its item and nothing else. */
  lemma NoteIsOnlyLogged(st: State, work: int)
    requires Enabled(st, AddNote(work))
    ensures var next, item := Next(st, AddNote(work)), st.Books().items[work];
      && next.Books().items == st.Books().items[work := item.(events := item.events + [Logged(NoteAdded)])]
      && next == st.(desk := st.desk.(books := st.Books().(items := next.Books().items)))
  {
  }

  // ---------- whole runs ----------

  ghost predicate Leads(s: State, step: Step, t: State) {
    Enabled(s, step) && Next(s, step) == t
  }

  /** The states from s to t follow one another by the steps. */
  ghost predicate Path<S(!new), T(!new)>(next: (S, T, S) -> bool, s: S, states: seq<S>, steps: seq<T>, t: S) {
    && |states| == |steps| + 1 && states[0] == s && states[|steps|] == t
    && forall i :: 0 <= i < |steps| ==> next(states[i], steps[i], states[i + 1])
  }

  lemma PathsJoin<S(!new), T(!new)>(next: (S, T, S) -> bool, s: S, first: seq<S>, one: seq<T>, t: S,
                                    second: seq<S>, two: seq<T>, u: S)
    requires Path(next, s, first, one, t) && Path(next, t, second, two, u)
    ensures Path(next, s, first + second[1..], one + two, u)
  {
  }

  /** States that lead to one another form a run. */
  lemma {:induction false} PathRuns(s: State, states: seq<State>, steps: seq<Step>, t: State)
    requires Path(Leads, s, states, steps, t)
    ensures Runs(s, steps, t)
    decreases |steps|
  {
    if steps != [] {
      assert Leads(states[0], steps[0], states[1]);
      assert forall i :: 0 <= i < |steps| - 1 ==> Leads(states[1..][i], steps[1..][i], states[1..][i + 1]);
      PathRuns(states[1], states[1..], steps[1..], t);
    }
  }

  predicate IsPatchItem(b: Books, work: int, status: WorkStatus) {
    work in b.items && b.items[work].kind == SelfPatch && b.items[work].parent == None && b.items[work].status == status
  }

  /** Nobody works, and the only message is the given one, for a self-patch item. */
  predicate Pending(st: State, m: Message, status: WorkStatus) {
    && st.held == map[] && st.desk.queue.waiting == [m] && st.desk.queue.counter == m.id
    && Addressed(st.Books(), m) && m.queue == SelfPatchQueue && IsPatchItem(st.Books(), m.work, status)
  }

  /** Nobody works and no message waits; the queue has numbered so many. */
  predicate Idle(st: State, counter: int) {
    st.held == map[] && st.desk.queue.waiting == [] && st.desk.queue.counter == counter
  }

  /** The patch that activation would take, and what it depends on outside the item. */
  predicate SameButItems(s: State, t: State) {
    s.repo == t.repo && s.Books().proposals == t.Books().proposals
  }

  lemma {:induction false} PatchStays(events: seq<Event>, tail: seq<Event>)
    requires forall i :: 0 <= i < |tail| ==> !Offers(tail[i])
    ensures LatestPatch(events + tail) == LatestPatch(events)
    decreases |tail|
  {
    if tail == [] {
      assert events + tail == events;
    } else {
      PatchStays(events, tail[..|tail| - 1]);
      assert (events + tail)[..|events + tail| - 1] == events + tail[..|tail| - 1];
      assert !Offers(tail[|tail| - 1]);
    }
  }

  lemma TakesOnly(m: Message, names: set<QueueName>)
    requires m.queue in names
    ensures Taken([m], names, 1) == [m] && Kept([m], names, 1) == []
  {
    assert [m][1..] == [];
  }

  /** What marking the job running and starting the item add to the item's log. */
  lemma StartIsLogged(b: Books, m: Message)
    requires Addressed(b, m) && b.items[m.work].kind == SelfPatch && b.items[m.work].status in {Accepted, Running}
    ensures var was, status := b.items[m.work].events, b.items[m.work].status;
      var running := b.MarkRunning(m.job);
      var move := if status == Running then Logged(WorkerResumedRunningWork) else Moved(Running, Some(m.job));
      && running.items[m.work] == b.items[m.work].Add(Logged(JobRunningRemark))
      && StartWork(running, m.work, m.job).items[m.work].events == was + [Logged(JobRunningRemark)] + [move]
      && IsPatchStatus(b.items[m.work], StartWork(running, m.work, m.job).items[m.work], Running)
  {
  }

  /** The status alone has changed, apart from the log. */
  predicate IsPatchStatus(i: Item, j: Item, status: WorkStatus) {
    j.kind == i.kind && j.parent == i.parent && j.status == status
  }

  lemma BeginIsLogged(d: Desk, m: Message)
    requires Addressed(d.books, m) && d.books.items[m.work].kind == SelfPatch
      && d.books.items[m.work].status in {Accepted, Running}
    ensures var after := Begin(d, m).0.books;
      && Begin(d, m).1 && m.work in after.items
      && IsPatchStatus(d.books.items[m.work], after.items[m.work], Running)
      && LatestPatch(after.items[m.work].events) == LatestPatch(d.books.items[m.work].events)
  {
    StartIsLogged(d.books, m);
    var was, status := d.books.items[m.work].events, d.books.items[m.work].status;
    var move := if status == Running then Logged(WorkerResumedRunningWork) else Moved(Running, Some(m.job));
    var tail := [Logged(JobRunningRemark), move, Logged(JobHeartbeat)];
    assert was + [Logged(JobRunningRemark)] + [move] + [Logged(JobHeartbeat)] == was + tail;
    PatchStays(was, tail);
  }

  lemma Starts(b: State, m: Message, status: WorkStatus, worker: int) returns (c: State, d: State)
    requires Pending(b, m, status) && status in {Accepted, Running}
    ensures Leads(b, TakeMessage(worker, {SelfPatchQueue}), c) && Leads(c, StartMessage(worker), d)
    ensures d.held == map[worker := Holding(m, true, true)] && SameButItems(b, d)
    ensures d.desk.queue.waiting == [] && d.desk.queue.counter == m.id && Addressed(d.Books(), m)
    ensures d.Books().jobs == b.Books().jobs[m.job := d.Books().jobs[m.job]]
    ensures IsPatchItem(d.Books(), m.work, Running)
    ensures LatestPatch(d.Books().items[m.work].events) == LatestPatch(b.Books().items[m.work].events)
  {
    TakesOnly(m, {SelfPatchQueue});
    c := Next(b, TakeMessage(worker, {SelfPatchQueue}));
    assert c.held[worker] == Holding(m, false, false);
    BeginIsLogged(c.desk, m);
    d := Next(c, StartMessage(worker));
  }

  /** What a self-patch run's end adds to the item's log. */
  lemma EndIsLogged(d: Desk, m: Message, outcome: RunResult)
    requires Addressed(d.books, m) && d.books.items[m.work].kind == SelfPatch && d.books.items[m.work].status == Running
    ensures var after := End(d, m, true, outcome).books;
      && m.work in after.items && IsPatchStatus(d.books.items[m.work], after.items[m.work], StatusAfter(outcome))
      && after.items[m.work].events == d.books.items[m.work].events + [Logged(JobHeartbeat)] + [Logged(NoteAdded)]
           + [Moved(StatusAfter(outcome), Some(m.job))] + [Finished(m.job, outcome)]
  {
  }

  lemma EndOffers(was: seq<Event>, job: int, outcome: RunResult)
    ensures var events := was + [Logged(JobHeartbeat)] + [Logged(NoteAdded)] + [Moved(StatusAfter(outcome), Some(job))]
                        + [Finished(job, outcome)];
      LatestPatch(events) == if outcome.PatchReady? then Some(outcome.patch) else LatestPatch(was)
  {
    var tail := [Logged(JobHeartbeat), Logged(NoteAdded), Moved(StatusAfter(outcome), Some(job)),
      Finished(job, outcome)];
    var events := was + [Logged(JobHeartbeat)] + [Logged(NoteAdded)] + [Moved(StatusAfter(outcome), Some(job))]
                + [Finished(job, outcome)];
    assert events == was + tail && events[|events| - 1] == Finished(job, outcome);
    if !outcome.PatchReady? {
      PatchStays(was, tail);
    }
  }

  lemma Ends(d: State, m: Message, worker: int, outcome: RunResult) returns (e: State)
    requires d.held == map[worker := Holding(m, true, true)] && d.desk.queue.waiting == []
      && d.desk.queue.counter == m.id
    requires Addressed(d.Books(), m) && IsPatchItem(d.Books(), m.work, Running)
    ensures Leads(d, FinishMessage(worker, outcome), e) && Idle(e, m.id) && SameButItems(d, e)
    ensures m.job in e.Books().jobs && e.Books().jobs[m.job].status == Done
    ensures e.Books().jobs == d.Books().jobs[m.job := e.Books().jobs[m.job]]
    ensures IsPatchItem(e.Books(), m.work, StatusAfter(outcome))
    ensures LatestPatch(e.Books().items[m.work].events)
         == if outcome.PatchReady? then Some(outcome.patch) else LatestPatch(d.Books().items[m.work].events)
  {
    EndIsLogged(d.desk, m, outcome);
    EndOffers(d.Books().items[m.work].events, m.job, outcome);
    e := Next(d, FinishMessage(worker, outcome));
  }

  /** The worker's three steps take a pending item to the status its result calls for. */
  lemma WorkerRuns(b: State, m: Message, status: WorkStatus, worker: int, outcome: RunResult)
    returns (c: State, d: State, e: State)
    requires Pending(b, m, status) && status in {Accepted, Running}
    ensures Leads(b, TakeMessage(worker, {SelfPatchQueue}), c) && Leads(c, StartMessage(worker), d)
    ensures Leads(d, FinishMessage(worker, outcome), e) && Idle(e, m.id) && SameButItems(b, e)
    ensures m.job in e.Books().jobs && e.Books().jobs[m.job].status == Done
    ensures e.Books().jobs == b.Books().jobs[m.job := e.Books().jobs[m.job]]
    ensures IsPatchItem(e.Books(), m.work, StatusAfter(outcome))
    ensures LatestPatch(e.Books().items[m.work].events)
         == if outcome.PatchReady? then Some(outcome.patch) else LatestPatch(b.Books().items[m.work].events)
  {
    c, d := Starts(b, m, status, worker);
    e := Ends(d, m, worker, outcome);
  }

  lemma ProposalIsQueued(head: Tree, work: int, s: Submission) returns (a: State, b: State)
    requires s.reachable
    ensures Leads(Initial(head), ProposeCapability(work), a) && Leads(a, UserTurn(work, ApprovedForDev, s), b)
    ensures Pending(b, Message(SelfPatchQueue, 1, s.job, work, SelfPatch), Accepted)
    ensures b.Books().jobs.Keys == {s.job} && b.repo == A.RepoData(head, head, head)
    ensures work in b.Books().proposals && b.Books().proposals[work].status == ApprovedForDev
    ensures Logged(Activated) !in b.Books().items[work].events
  {
    a := Next(Initial(head), ProposeCapability(work));
    b := Next(a, UserTurn(work, ApprovedForDev, s));
  }

  /** Outcomes of an activation in which everything goes well. */
  const ALL_WELL := A.Outcomes(true, true, true, true, true, true, true, true, true, true)

  /** The patch is committed, its item completed and its proposal active. */
  predicate Arrived(t: State, head: Tree, work: int, patch: Patch) {
    && t.repo == A.RepoData(Patched(patch, head), Patched(patch, head), Patched(patch, head))
    && work in t.Books().items && t.Books().items[work].status == Completed
    && work in t.Books().proposals && t.Books().proposals[work].status == Active
  }

  lemma ActivationCommits(st: State, config: A.Config, work: int, patch: Patch, head: Tree) returns (t: State)
    requires IsPatchItem(st.Books(), work, WaitingApproval) && LatestPatch(st.Books().items[work].events) == Some(patch)
    requires config.commitAfterApply && st.repo == A.RepoData(head, head, head) && Fits(patch, head)
    requires work in st.Books().proposals && st.Books().proposals[work].status == ApprovedForDev
    ensures Leads(st, ActivateItem(config, work, ALL_WELL), t) && Arrived(t, head, work, patch)
  {
    SuccessSpreads(st.Books(), work);
    t := Next(st, ActivateItem(config, work, ALL_WELL));
  }

  function OfferSteps(work: int, s: Submission, worker: int, patch: Patch): seq<Step> {
    [ProposeCapability(work), UserTurn(work, ApprovedForDev, s), TakeMessage(worker, {SelfPatchQueue}),
     StartMessage(worker), FinishMessage(worker, PatchReady(patch))]
  }

  /** A proposal is approved and worked on, and the job offers the patch. */
  lemma ProposalIsOffered(head: Tree, work: int, s: Submission, worker: int, patch: Patch)
    returns (e: State, states: seq<State>)
    requires s.reachable
    ensures Path(Leads, Initial(head), states, OfferSteps(work, s, worker, patch), e)
    ensures Idle(e, 1) && e.repo == A.RepoData(head, head, head)
    ensures e.Books().jobs.Keys == {s.job} && e.Books().jobs[s.job].status == Done
    ensures work in e.Books().proposals && e.Books().proposals[work].status == ApprovedForDev
    ensures IsPatchItem(e.Books(), work, WaitingApproval) && LatestPatch(e.Books().items[work].events) == Some(patch)
  {
    var a, b := ProposalIsQueued(head, work, s);
    var m := Message(SelfPatchQueue, 1, s.job, work, SelfPatch);
    var c, d;
    c, d, e := WorkerRuns(b, m, Accepted, worker, PatchReady(patch));
    states := [Initial(head), a, b, c, d, e];
  }

  /** Nothing in the protocol is out of reach: for every patch that fits, a proposal can be approved, queued, worked
      on, activated and committed, and ends active with its item completed. */
  lemma ProposalReachesHead(head: Tree, work: int, s: Submission, worker: int, patch: Patch, config: A.Config)
    returns (t: State)
    requires s.reachable && config.commitAfterApply && Fits(patch, head)
    ensures Runs(Initial(head), OfferSteps(work, s, worker, patch) + [ActivateItem(config, work, ALL_WELL)], t)
    ensures Arrived(t, head, work, patch)
  {
    var e, states := ProposalIsOffered(head, work, s, worker, patch);
    t := ActivationCommits(e, config, work, patch, head);
    var one, two := OfferSteps(work, s, worker, patch), [ActivateItem(config, work, ALL_WELL)];
    PathsJoin(Leads, Initial(head), states, one, e, [e, t], two, t);
    PathRuns(Initial(head), states + [e, t][1..], one + two, t);
  }

  // ---------- a hand move lets an older patch through ----------

  /** What a retry adds to the item's log. */
  lemma RetryIsLogged(d: Desk, work: int, s: Submission)
    requires s.job !in d.books.jobs && IsPatchItem(d.books, work, Reviewing) && !d.books.HasActiveJob(work)
      && s.reachable
    ensures var after := Retry(d, work, s).0;
      && IsPatchItem(after.books, work, Running) && after.books.proposals == d.books.proposals
      && after.books.items[work].events == d.books.items[work].events + [Logged(JobCreatedRemark)]
           + [Moved(Running, Some(s.job))] + [Logged(JobQueuedRemark)]
      && after.queue == d.queue.Publish(SelfPatchQueue, s.job, work, SelfPatch)
      && after.books.jobs.Keys == d.books.jobs.Keys + {s.job} && after.books.jobs[s.job].work == work
  {
  }

  lemma IsTakenBack(e: State, work: int, job: int, again: Submission) returns (f: State)
    requires Idle(e, 1) && IsPatchItem(e.Books(), work, WaitingApproval)
    requires e.Books().jobs.Keys == {job} && e.Books().jobs[job].status == Done && again.job != job
    ensures Leads(e, UserMove(work, Reviewing, again), f) && SameButItems(e, f) && Idle(f, 1)
    ensures IsPatchItem(f.Books(), work, Reviewing) && f.Books().jobs == e.Books().jobs && !f.Books().HasActiveJob(work)
    ensures f.Books().items[work].events == e.Books().items[work].events + [Moved(Reviewing, None)]
  {
    f := Next(e, UserMove(work, Reviewing, again));
  }

  /** A user takes the item back and retries it with a second job. */
  lemma IsRetried(e: State, work: int, job: int, again: Submission) returns (f: State, g: State)
    requires Idle(e, 1) && IsPatchItem(e.Books(), work, WaitingApproval)
    requires e.Books().jobs.Keys == {job} && e.Books().jobs[job].status == Done && again.job != job && again.reachable
    ensures Leads(e, UserMove(work, Reviewing, again), f) && Leads(f, UserRetry(work, again), g) && SameButItems(e, g)
    ensures Pending(g, Message(SelfPatchQueue, 2, again.job, work, SelfPatch), Running)
    ensures g.Books().jobs.Keys == {job, again.job}
    ensures LatestPatch(g.Books().items[work].events) == LatestPatch(e.Books().items[work].events)
  {
    f := IsTakenBack(e, work, job, again);
    RetryIsLogged(f.desk, work, again);
    g := Next(f, UserRetry(work, again));
    RetryOffersNothing(e.Books().items[work].events, again.job);
  }

  lemma RetryOffersNothing(was: seq<Event>, job: int)
    ensures LatestPatch(was + [Moved(Reviewing, None)] + [Logged(JobCreatedRemark)] + [Moved(Running, Some(job))]
                        + [Logged(JobQueuedRemark)])
         == LatestPatch(was)
  {
    var tail := [Moved(Reviewing, None), Logged(JobCreatedRemark), Moved(Running, Some(job)), Logged(JobQueuedRemark)];
    assert was + [Moved(Reviewing, None)] + [Logged(JobCreatedRemark)] + [Moved(Running, Some(job))]
         + [Logged(JobQueuedRemark)] == was + tail;
    PatchStays(was, tail);
  }

  /** A user moves an item under review back to running and on to waiting_approval. */
  lemma IsMovedByHand(j: State, work: int, s: Submission) returns (k: State, l: State)
    requires IsPatchItem(j.Books(), work, Reviewing) && s.job !in j.Books().jobs
    ensures Leads(j, UserMove(work, Running, s), k) && Leads(k, UserMove(work, WaitingApproval, s), l)
      && SameButItems(j, l)
    ensures IsPatchItem(l.Books(), work, WaitingApproval)
    ensures LatestPatch(l.Books().items[work].events) == LatestPatch(j.Books().items[work].events)
  {
    k := Next(j, UserMove(work, Running, s));
    l := Next(k, UserMove(work, WaitingApproval, s));
    var tail := [Moved(Running, None), Moved(WaitingApproval, None)];
    assert l.Books().items[work].events == j.Books().items[work].events + tail;
    PatchStays(j.Books().items[work].events, tail);
  }

  /** The item is retried and the new job fails its tests; then it is moved by hand and activated. */
  function RetrySteps(work: int, again: Submission, worker: int): seq<Step> {
    [UserMove(work, Reviewing, again), UserRetry(work, again), TakeMessage(worker, {SelfPatchQueue}),
     StartMessage(worker), FinishMessage(worker, TestFailed)]
  }

  function HandSteps(work: int, s: Submission, config: A.Config): seq<Step> {
    [UserMove(work, Running, s), UserMove(work, WaitingApproval, s), ActivateItem(config, work, ALL_WELL)]
  }

  lemma RetryFails(e: State, work: int, job: int, again: Submission, worker: int)
    returns (j: State, states: seq<State>)
    requires Idle(e, 1) && IsPatchItem(e.Books(), work, WaitingApproval)
    requires e.Books().jobs.Keys == {job} && e.Books().jobs[job].status == Done && again.job != job && again.reachable
    ensures Path(Leads, e, states, RetrySteps(work, again, worker), j) && SameButItems(e, j)
      && j.Books().jobs.Keys == {job, again.job}
    ensures IsPatchItem(j.Books(), work, Reviewing)
    ensures LatestPatch(j.Books().items[work].events) == LatestPatch(e.Books().items[work].events)
  {
    var f, g := IsRetried(e, work, job, again);
    var h, i;
    h, i, j := WorkerRuns(g, Message(SelfPatchQueue, 2, again.job, work, SelfPatch), Running, worker, TestFailed);
    states := [e, f, g, h, i, j];
  }

  lemma HandMoveCommits(j: State, work: int, s: Submission, config: A.Config, patch: Patch, head: Tree)
    returns (t: State, states: seq<State>)
    requires IsPatchItem(j.Books(), work, Reviewing) && s.job !in j.Books().jobs
    requires LatestPatch(j.Books().items[work].events) == Some(patch)
    requires config.commitAfterApply && j.repo == A.RepoData(head, head, head) && Fits(patch, head)
    requires work in j.Books().proposals && j.Books().proposals[work].status == ApprovedForDev
    ensures Path(Leads, j, states, HandSteps(work, s, config), t) && Arrived(t, head, work, patch)
  {
    var k, l := IsMovedByHand(j, work, s);
    t := ActivationCommits(l, config, work, patch, head);
    states := [j, k, l, t];
  }

  /** A first job offers a patch and a second one fails its tests. If a user then moves the item to waiting_approval
      by hand, activation commits the patch of the first job. */
  lemma HandMoveActivatesOldPatch(head: Tree, work: int, first: Submission, again: Submission, spare: Submission,
                                  worker: int, patch: Patch, config: A.Config) returns (t: State)
    requires config.commitAfterApply && Fits(patch, head) && first.reachable && again.reachable
    requires first.job != again.job && spare.job !in {first.job, again.job}
    ensures Runs(Initial(head), OfferSteps(work, first, worker, patch) + RetrySteps(work, again, worker)
                                + HandSteps(work, spare, config), t)
    ensures Arrived(t, head, work, patch)
  {
    var e, offered := ProposalIsOffered(head, work, first, worker, patch);
    var j, failed := RetryFails(e, work, first.job, again, worker);
    var moved;
    t, moved := HandMoveCommits(j, work, spare, config, patch, head);
    var one, two, three := OfferSteps(work, first, worker, patch), RetrySteps(work, again, worker),
      HandSteps(work, spare, config);
    PathsJoin(Leads, Initial(head), offered, one, e, failed, two, j);
    PathsJoin(Leads, Initial(head), offered + failed[1..], one + two, j, moved, three, t);
    PathRuns(Initial(head), offered + failed[1..] + moved[1..], one + two + three, t);
  }

  // ---------- a failed job with attempts left ----------

  function StrandingSteps(work: int, s: Submission, worker: int): seq<Step> {
    [CreateItem(work, ExternalWork), UserMove(work, Accepted, s), TakeMessage(worker, {ExternalWorkQueue}),
     StartMessage(worker), FailMessage(worker)]
  }

  lemma ExternalIsQueued(head: Tree, work: int, s: Submission) returns (a: State, b: State)
    requires s.reachable
    ensures Leads(Initial(head), CreateItem(work, ExternalWork), a) && Leads(a, UserMove(work, Accepted, s), b)
    ensures b.held == map[] && b.desk.queue.deadLetters == []
    ensures b.desk.queue.waiting == [Message(ExternalWorkQueue, 1, s.job, work, ExternalWork)]
    ensures Addressed(b.Books(), Message(ExternalWorkQueue, 1, s.job, work, ExternalWork))
    ensures b.Books().items[work].kind == ExternalWork
    ensures b.Books().jobs[s.job].attempts == 0 && b.Books().jobs[s.job].maxAttempts == Max(1, s.maxAttempts)
  {
    a := Next(Initial(head), CreateItem(work, ExternalWork));
    b := Next(a, UserMove(work, Accepted, s));
  }

  lemma ExternalFails(b: State, m: Message, worker: int) returns (c: State, d: State, t: State)
    requires b.held == map[] && b.desk.queue.waiting == [m] && m.queue == ExternalWorkQueue && m.kind == ExternalWork
    requires Addressed(b.Books(), m) && b.Books().items[m.work].kind == ExternalWork
    requires b.Books().jobs[m.job].attempts == 0 && b.Books().jobs[m.job].maxAttempts >= 2
    ensures Leads(b, TakeMessage(worker, {ExternalWorkQueue}), c) && Leads(c, StartMessage(worker), d)
    ensures Leads(d, FailMessage(worker), t) && Waiting(t.Books(), m.job)
    ensures t.desk.queue.waiting == [] && t.held == map[] && t.desk.queue.deadLetters == b.desk.queue.deadLetters
  {
    TakesOnly(m, {ExternalWorkQueue});
    c := Next(b, TakeMessage(worker, {ExternalWorkQueue}));
    assert c.held[worker] == Holding(m, false, false);
    d := Next(c, StartMessage(worker));
    t := Next(d, FailMessage(worker));
  }

  /** External work whose job may be tried more than once ends in retry_wait when it fails, its message unread. */
  lemma FailureStrands(head: Tree, work: int, s: Submission, worker: int) returns (t: State)
    requires s.reachable && s.maxAttempts >= 2
    ensures Runs(Initial(head), StrandingSteps(work, s, worker), t) && Waiting(t.Books(), s.job)
    ensures t.desk.queue.waiting == [] && t.held == map[] && t.desk.queue.deadLetters == []
  {
    var a, b := ExternalIsQueued(head, work, s);
    var c, d;
    c, d, t := ExternalFails(b, Message(ExternalWorkQueue, 1, s.job, work, ExternalWork), worker);
    PathRuns(Initial(head), [Initial(head), a, b, c, d, t], StrandingSteps(work, s, worker), t);
  }

  // ---------- a proposal turned active without an activation ----------

  /** A proposal is approved and then turned active directly: it is active, and its item was never activated. */
  lemma DirectTurnSkipsActivation(head: Tree, work: int, s: Submission, again: Submission) returns (t: State)
    requires s.reachable && again.job != s.job
    ensures Runs(Initial(head), [ProposeCapability(work), UserTurn(work, ApprovedForDev, s),
      UserTurn(work, Active, again)], t)
    ensures work in t.Books().proposals && t.Books().proposals[work].status == Active && !EarnedAt(t.Books(), work)
    ensures t.repo == A.RepoData(head, head, head)
  {
    var a, b := ProposalIsQueued(head, work, s);
    var step := UserTurn(work, Active, again);
    DirectTurnMovesProposal(b.desk, work, again);
    t := Next(b, step);
    PathRuns(Initial(head), [Initial(head), a, b, t],
      [ProposeCapability(work), UserTurn(work, ApprovedForDev, s), step], t);
  }
}
