/** What holds in every state of every run of the protocol. */
module Safety {
  import opened Wrappers
  import opened WorkStates
  import opened Patches
  import opened Ledgers
  import opened LedgerLaws
  import opened WorkQueues
  import opened WorkServices
  import opened CapabilityServices
  import opened Workers
  import opened ServiceLaws
  import opened Deliveries
  import opened DeliveryLaws
  import opened Protocols
  import A = Activations

  // ---------- the ledger ----------

  /** In every run the log only grows, and every status column stays the fold of its log. */
  lemma {:induction false} StatusIsFoldOfLog(s: State, steps: seq<Step>, t: State)
    requires Runs(s, steps, t) && AllSound(s.Books())
    ensures AllSound(t.Books()) && Grows(s.Books(), t.Books())
    decreases |steps|
  {
    if steps != [] {
      var next := Next(s, steps[0]);
      StepKeepsLedger(s, steps[0]);
      StatusIsFoldOfLog(next, steps[1..], t);
      GrowsOn(s.Books(), next.Books(), t.Books());
    }
  }

  lemma GrowsOn(b: Books, c: Books, d: Books)
    requires Grows(b, c) && Grows(c, d)
    ensures Grows(b, d)
  {
  }

  // ---------- jobs and messages ----------

  /** In every run jobs and messages stay in order, and every job belongs to an item. */
  lemma {:induction false} DeliveryIsCoherent(s: State, steps: seq<Step>, t: State)
    requires Runs(s, steps, t) && Coherent(s.Delivery()) && Owned(s.Books())
    ensures Coherent(t.Delivery()) && Owned(t.Books())
    decreases |steps|
  {
    if steps != [] {
      var next := Next(s, steps[0]);
      StepKeepsLine(s, steps[0]);
      StepKeepsLedger(s, steps[0]);
      StepExtendsJobs(s, steps[0]);
      OwnedStays(s.Books(), next.Books());
      DeliveryIsCoherent(next, steps[1..], t);
    }
  }

  lemma InitialIsCoherent(head: Tree)
    ensures Coherent(Initial(head).Delivery()) && Owned(Initial(head).Books())
    ensures AllSound(Initial(head).Books()) && AllAttributed(Initial(head).Books()) && WorkersUnasked(Initial(head))
  {
  }

  /** At most one active job per work item, under every interleaving. */
  lemma AtMostOneActiveJob(head: Tree, steps: seq<Step>, t: State, j: int, k: int)
    requires Runs(Initial(head), steps, t)
    requires j in t.Books().jobs && k in t.Books().jobs && t.Books().jobs[j].work == t.Books().jobs[k].work
    requires IsActive(t.Books().jobs[j].status) && IsActive(t.Books().jobs[k].status)
    ensures j == k
  {
    InitialIsCoherent(head);
    DeliveryIsCoherent(Initial(head), steps, t);
    assert IsLive(t.Delivery(), j) && IsLive(t.Delivery(), k);
  }

  /** Every published message is in exactly one place, in every state of every run. */
  lemma EveryMessageIsPlaced(head: Tree, steps: seq<Step>, t: State, j: int)
    requires Runs(Initial(head), steps, t) && j in t.Books().jobs && t.Books().jobs[j].message.Some?
    ensures var l := t.Delivery();
      Count(InQueue(l, j)) + Count(InHand(l, j, false)) + Count(InHand(l, j, true)) + Count(Acknowledged(l, j))
      + Count(Stranded(l, j)) == 1
    ensures forall v, w :: v in t.held && w in t.held && t.held[v].message.job == t.held[w].message.job == j ==> v == w
  {
    InitialIsCoherent(head);
    DeliveryIsCoherent(Initial(head), steps, t);
    ExactlyOnePlace(t.Delivery(), j);
  }

  /** A worker that holds a message can always go on: its job and item exist. */
  lemma WorkersAreNeverStuck(head: Tree, steps: seq<Step>, t: State, worker: int, outcome: RunResult)
    requires Runs(Initial(head), steps, t) && worker in t.held
    ensures Enabled(t, FailMessage(worker))
    ensures Enabled(t, if t.held[worker].started then FinishMessage(worker, outcome) else StartMessage(worker))
  {
    InitialIsCoherent(head);
    DeliveryIsCoherent(Initial(head), steps, t);
    assert Carries(t.Delivery(), t.held[worker].message, StatusHeld(t.held[worker]));
  }

  /** Once a worker has finished or failed a self-patch job, no active job of that item remains. */
  lemma SelfPatchJobFreesItem(st: State, step: Step)
    requires Coherent(st.Delivery()) && Owned(st.Books()) && Enabled(st, step)
    requires step.FinishMessage? || step.FailMessage?
    requires step.FailMessage? ==> st.held[step.worker].message.kind == SelfPatch
    ensures !Next(st, step).Books().HasActiveJob(st.held[step.worker].message.work)
  {
    if step.FinishMessage? {
      EndLine(st.desk, st.held, step.worker, step.outcome);
    } else {
      CollapseLine(st.desk, st.held, step.worker);
    }
    assert NoActive(Next(st, step).Delivery(), st.held[step.worker].message.work);
    forall j | j in Next(st, step).Books().jobs && IsActive(Next(st, step).Books().jobs[j].status)
      ensures Next(st, step).Books().jobs[j].work != st.held[step.worker].message.work
    {
      assert IsLive(Next(st, step).Delivery(), j);
    }
  }

  predicate Waiting(b: Books, j: int) {
    j in b.jobs && b.jobs[j].status == RetryWait
  }

  /** Nothing reads an unacknowledged message again: a job in retry_wait stays there. */
  lemma StrandedStays(st: State, step: Step, j: int)
    requires Enabled(st, step) && Coherent(st.Delivery()) && Waiting(st.Books(), j)
    ensures Waiting(Next(st, step).Books(), j) && Next(st, step).Books().jobs[j] == st.Books().jobs[j]
  {
    var d := st.desk;
    match step {
      case StartMessage(worker) => WorkerSparesStranded(st, worker, Ignored, j);
      case FinishMessage(worker, outcome) => WorkerSparesStranded(st, worker, outcome, j);
      case FailMessage(worker) => WorkerSparesStranded(st, worker, Ignored, j);
      case UserTurn(p, to, s) => TurnTouchesNewJobOnly(d, p, to, s, j);
      case UserPromote(work, listed, child, s) => PromoteTouchesNewJobOnly(d, work, listed, child, s, j);
      case UserRetry(work, s) => RetryTouchesNewJobOnly(d, work, s, j);
      case UserMove(work, to, s) => MoveTouchesNewJobOnly(d, work, to, s, j);
      case UserEnqueue(work, s) => EnqueueTouchesNewJobOnly(d, work, s, j);
      case TakeMessage(worker, names) =>
      case _ => ItemStepLine(st, step);
    }
  }

  lemma EnqueueTouchesNewJobOnly(d: Desk, work: int, s: Submission, j: int)
    requires s.job !in d.books.jobs && j in d.books.jobs
    ensures j in Enqueue(d, work, s).0.books.jobs && Enqueue(d, work, s).0.books.jobs[j] == d.books.jobs[j]
  {
  }

  lemma MoveTouchesNewJobOnly(d: Desk, work: int, to: WorkStatus, s: Submission, j: int)
    requires s.job !in d.books.jobs && j in d.books.jobs
    ensures j in Transition(d, work, to, s).0.books.jobs
      && Transition(d, work, to, s).0.books.jobs[j] == d.books.jobs[j]
  {
  }

  lemma WorkerSparesStranded(st: State, worker: int, outcome: RunResult, j: int)
    requires Coherent(st.Delivery()) && worker in st.held && Waiting(st.Books(), j)
    requires Addressed(st.Books(), st.held[worker].message)
    ensures j in Begin(st.desk, st.held[worker].message).0.books.jobs
    ensures Begin(st.desk, st.held[worker].message).0.books.jobs[j] == st.Books().jobs[j]
    ensures j in End(st.desk, st.held[worker].message, st.held[worker].runnable, outcome).books.jobs
    ensures End(st.desk, st.held[worker].message, st.held[worker].runnable, outcome).books.jobs[j] == st.Books().jobs[j]
    ensures j in Collapse(st.desk, st.held[worker].message).books.jobs
    ensures Collapse(st.desk, st.held[worker].message).books.jobs[j] == st.Books().jobs[j]
  {
    HeldIsNotStranded(st, worker, j);
  }

  lemma PromoteTouchesNewJobOnly(d: Desk, work: int, listed: seq<int>, child: int, s: Submission, j: int)
    requires s.job !in d.books.jobs && child !in d.books.items && IsListing(d.books, work, listed) && j in d.books.jobs
    ensures j in Promote(d, work, listed, child, s).0.books.jobs
    ensures Promote(d, work, listed, child, s).0.books.jobs[j] == d.books.jobs[j]
  {
  }

  lemma RetryTouchesNewJobOnly(d: Desk, work: int, s: Submission, j: int)
    requires s.job !in d.books.jobs && j in d.books.jobs
    ensures j in Retry(d, work, s).0.books.jobs && Retry(d, work, s).0.books.jobs[j] == d.books.jobs[j]
  {
  }

  lemma HeldIsNotStranded(st: State, worker: int, j: int)
    requires Coherent(st.Delivery()) && worker in st.held && Waiting(st.Books(), j)
    ensures st.held[worker].message.job != j
  {
    assert Carries(st.Delivery(), st.held[worker].message, StatusHeld(st.held[worker]));
  }

  lemma TurnTouchesNewJobOnly(d: Desk, p: int, to: ProposalStatus, s: Submission, j: int)
    requires s.job !in d.books.jobs && (p in d.books.proposals ==> p in d.books.items) && j in d.books.jobs
    ensures j in TurnProposal(d, p, to, s).0.books.jobs && TurnProposal(d, p, to, s).0.books.jobs[j] == d.books.jobs[j]
  {
  }

  /** So an item whose job waits for a retry never gets another job, in any continuation. */
  lemma {:induction false} StrandedBlocksItem(s: State, steps: seq<Step>, t: State, j: int, submission: Submission)
    requires Runs(s, steps, t) && Coherent(s.Delivery()) && Owned(s.Books()) && Waiting(s.Books(), j)
    requires submission.job !in t.Books().jobs
    ensures Waiting(t.Books(), j)
    ensures Enqueue(t.desk, s.Books().jobs[j].work, submission) == (t.desk, ActiveJobExists)
    decreases |steps|
  {
    if steps != [] {
      StrandedStays(s, steps[0], j);
      DeliveryIsCoherent(s, [steps[0]], Next(s, steps[0]));
      StrandedBlocksItem(Next(s, steps[0]), steps[1..], t, j, submission);
    } else {
      assert s.Books().HasActiveJob(s.Books().jobs[j].work);
    }
  }

  /** No job is ever started twice, since nothing delivers a message again. */
  lemma NoJobStartsTwice(head: Tree, steps: seq<Step>, t: State, j: int)
    requires Runs(Initial(head), steps, t) && j in t.Books().jobs
    ensures 0 <= t.Books().jobs[j].attempts <= 1
    ensures t.Books().jobs[j].status == Queued ==> t.Books().jobs[j].attempts == 0
  {
    InitialIsCoherent(head);
    DeliveryIsCoherent(Initial(head), steps, t);
    assert Counted(t.Delivery().jobs[j]);
  }

  /** A failure leaves its item with an active job exactly if the job is not a self-patch job and has attempts left. */
  lemma FailureStrandsExactly(st: State, worker: int)
    requires Coherent(st.Delivery()) && Owned(st.Books()) && Enabled(st, FailMessage(worker))
    ensures var m := st.held[worker].message;
      var row := st.Books().jobs[m.job];
      Next(st, FailMessage(worker)).Books().HasActiveJob(m.work)
      <==> m.kind != SelfPatch && row.attempts < row.maxAttempts
  {
    var m := st.held[worker].message;
    var row := st.Books().jobs[m.job];
    var next := Next(st, FailMessage(worker));
    if m.kind == SelfPatch {
      SelfPatchJobFreesItem(st, FailMessage(worker));
    } else if row.attempts < row.maxAttempts {
      assert next.Books().jobs[m.job].status == RetryWait && next.Books().jobs[m.job].work == m.work;
    } else {
      FailureFrees(st, worker);
    }
  }

  lemma FailureFrees(st: State, worker: int)
    requires Coherent(st.Delivery()) && Enabled(st, FailMessage(worker))
    requires AfterFailure(st.Books().jobs[st.held[worker].message.job], st.held[worker].message.kind != SelfPatch)
      == DeadLetter
    ensures !Next(st, FailMessage(worker)).Books().HasActiveJob(st.held[worker].message.work)
  {
    var m := st.held[worker].message;
    assert Carries(st.Delivery(), m, StatusHeld(st.held[worker]));
    assert IsLive(st.Delivery(), m.job);
    var jobs := Next(st, FailMessage(worker)).Books().jobs;
    assert jobs[m.job].status == DeadLetter;
    forall j | j in jobs && IsActive(jobs[j].status) ensures jobs[j].work != m.work {
      assert IsLive(st.Delivery(), j);
    }
  }

  lemma FailureWaits(st: State, worker: int)
    requires Enabled(st, FailMessage(worker))
    ensures var m := st.held[worker].message;
      var row := st.Books().jobs[m.job];
      Waiting(Next(st, FailMessage(worker)).Books(), m.job) <==> m.kind != SelfPatch && row.attempts < row.maxAttempts
  {
  }

  /** So max_attempts never leads to a second attempt: in every run a job that fails is dead and frees its item, or
      waits for a retry that never comes and blocks it. It waits exactly if it is not self-patch work and either was
      not started yet or has more than one attempt. */
  lemma FailureIsNeverRetried(head: Tree, steps: seq<Step>, st: State, worker: int)
    requires Runs(Initial(head), steps, st) && Enabled(st, FailMessage(worker))
    ensures var m := st.held[worker].message;
      var after := Next(st, FailMessage(worker)).Books();
      && (Waiting(after, m.job)
          <==> m.kind != SelfPatch && (st.held[worker].started ==> st.Books().jobs[m.job].maxAttempts >= 2))
      && (after.HasActiveJob(m.work) <==> Waiting(after, m.job))
  {
    InitialIsCoherent(head);
    DeliveryIsCoherent(Initial(head), steps, st);
    HeldIsCounted(st.Delivery(), worker);
    FailureWaits(st, worker);
    FailureStrandsExactly(st, worker);
  }

  lemma HeldIsCounted(l: Line, worker: int)
    requires Coherent(l) && worker in l.held
    ensures var job := l.held[worker].message.job;
      job in l.jobs && l.jobs[job].attempts == (if l.held[worker].started then 1 else 0) && l.jobs[job].maxAttempts >= 1
  {
    assert Carries(l, l.held[worker].message, StatusHeld(l.held[worker]));
    assert Counted(l.jobs[l.held[worker].message.job]);
  }

  // ---------- retries and stale jobs ----------

  /** A retry whose job cannot be published puts the item back where it was, without an active job, so it
      can be retried again. */
  lemma FailedRetryRestores(d: Desk, work: int, s: Submission)
    requires s.job !in d.books.jobs && !s.reachable
    requires Retry(d, work, s).1 == NotQueued
    ensures var after := Retry(d, work, s).0.books;
      && after.items[work].status == d.books.items[work].status
      && !after.HasActiveJob(work)
      && after.jobs[s.job].status == EnqueueFailed
  {
  }

  /** A self-patch job that finds its item not runnable leaves the status unchanged when it starts. It also
      does when it ends, exactly if the item did not become runnable in between. */
  lemma StaleJobIsHarmlessExactly(d: Desk, m: Message, outcome: RunResult)
    requires Addressed(d.books, m) && d.books.items[m.work].kind == SelfPatch
    ensures !Runnable(SelfPatch, d.books.items[m.work].status) ==>
      !Begin(d, m).1 && Begin(d, m).0.books.items[m.work].status == d.books.items[m.work].status
    ensures End(d, m, false, outcome).books.items[m.work].status == d.books.items[m.work].status
       <==> !Runnable(SelfPatch, d.books.items[m.work].status)
  {
  }

  // ---------- why publishing and marking must be one step ----------

  /** An enqueue whose message was published but whose job could not be marked queued. */
  function PublishUnmarked(d: Desk, work: int, s: Submission): Desk
    requires s.job !in d.books.jobs && work in d.books.items
  {
    var kind := d.books.items[work].kind;
    Desk(d.books.CreateJob(s.job, work, s.maxAttempts).MarkEnqueueFailed(s.job),
         d.queue.Publish(QueueFor(kind), s.job, work, kind))
  }

  /** If the two writes come apart, the item accepts a second job, and starting the lost message makes both active. */
  lemma UnmarkedPublishGivesTwoActiveJobs(d: Desk, work: int, s: Submission, again: Submission)
    requires work in d.books.items && !d.books.HasActiveJob(work)
    requires s.job !in d.books.jobs && again.job !in d.books.jobs && again.job != s.job && again.reachable
    ensures var lost := PublishUnmarked(d, work, s);
      var second := Enqueue(lost, work, again).0;
      var m := lost.queue.waiting[|lost.queue.waiting| - 1];
      && Addressed(second.books, m)
      && var started := Begin(second, m).0.books;
         && s.job in started.jobs && again.job in started.jobs
         && started.jobs[s.job].work == started.jobs[again.job].work == work
         && IsActive(started.jobs[s.job].status) && IsActive(started.jobs[again.job].status)
  {
    LostAcceptsSecond(d, work, s, again);
    var second := Enqueue(PublishUnmarked(d, work, s), work, again).0;
    BothStart(second.books, Message(QueueFor(d.books.items[work].kind), d.queue.counter + 1, s.job, work,
      d.books.items[work].kind), again.job, second.queue);
  }

  lemma LostAcceptsSecond(d: Desk, work: int, s: Submission, again: Submission)
    requires work in d.books.items && !d.books.HasActiveJob(work)
    requires s.job !in d.books.jobs && again.job !in d.books.jobs && again.job != s.job && again.reachable
    ensures var lost := PublishUnmarked(d, work, s);
      var second := Enqueue(lost, work, again).0.books;
      && lost.queue.waiting == d.queue.waiting
           + [Message(QueueFor(d.books.items[work].kind), d.queue.counter + 1, s.job, work,
                                                          d.books.items[work].kind)]
      && work in second.items && s.job in second.jobs && second.jobs[s.job].work == work
      && again.job in second.jobs && second.jobs[again.job].work == work && second.jobs[again.job].status == Queued
  {
    var lost := PublishUnmarked(d, work, s);
    assert !lost.books.HasActiveJob(work);
  }

  lemma BothStart(b: Books, m: Message, other: int, queue: QueueData)
    requires Addressed(b, m) && other in b.jobs && other != m.job && IsActive(b.jobs[other].status)
    ensures var started := Begin(Desk(b, queue), m).0.books;
      && m.job in started.jobs && other in started.jobs && started.jobs[other] == b.jobs[other]
      && started.jobs[m.job].work == m.work && IsActive(started.jobs[m.job].status)
  {
  }

  // ---------- the patch that activation takes ----------

  /** A worker is at work on a self-patch item. */
  predicate Works(b: Books, h: Holding) {
    h.started && h.runnable && h.message.work in b.items && b.items[h.message.work].kind == SelfPatch
  }

  /** No job has asked yet for the activation of an item that is being worked on. */
  ghost predicate WorkersUnasked(st: State) {
    forall w :: w in st.held && Works(st.Books(), st.held[w]) ==> st.Books().items[st.held[w].message.work].Unasked()
  }

  /** Two workers never run jobs of the same item. */
  lemma WorkersAreApart(st: State, v: int, w: int)
    requires Coherent(st.Delivery()) && v in st.held && w in st.held && v != w
    ensures st.held[v].message.work != st.held[w].message.work
  {
    assert Carries(st.Delivery(), st.held[v].message, StatusHeld(st.held[v]));
    assert Carries(st.Delivery(), st.held[w].message, StatusHeld(st.held[w]));
    assert IsLive(st.Delivery(), st.held[v].message.job) && IsLive(st.Delivery(), st.held[w].message.job);
  }

  lemma FinishAttributes(st: State, worker: int, outcome: RunResult)
    requires Enabled(st, FinishMessage(worker, outcome)) && Coherent(st.Delivery()) && Owned(st.Books())
    requires AllAttributed(st.Books()) && WorkersUnasked(st)
    ensures AllAttributed(Next(st, FinishMessage(worker, outcome)).Books())
    ensures WorkersUnasked(Next(st, FinishMessage(worker, outcome)))
  {
    var h := st.held[worker];
    var m := h.message;
    EndKeeps(st.desk, m, h.runnable, outcome);
    if Reported(st.Books().items[m.work].kind, h.runnable, outcome).PatchReady? {
      assert Works(st.Books(), h);
      ReadyTracks(st.desk, m, h.runnable, outcome);
    }
    var next := Next(st, FinishMessage(worker, outcome));
    forall w | w in next.held && Works(next.Books(), next.held[w])
      ensures next.Books().items[next.held[w].message.work].Unasked()
    {
      WorkersAreApart(st, w, worker);
      OthersUntouched(st.desk, m, h.runnable, outcome, st.held[w].message.work);
      assert Carries(st.Delivery(), st.held[w].message, StatusHeld(st.held[w]));
      assert Works(st.Books(), st.held[w]);
    }
  }

  lemma OthersUntouched(d: Desk, m: Message, runnable: bool, outcome: RunResult, work: int)
    requires Addressed(d.books, m) && work in d.books.items && work != m.work
    ensures work in End(d, m, runnable, outcome).books.items
    ensures End(d, m, runnable, outcome).books.items[work] == d.books.items[work]
  {
  }

  lemma StartLeavesUnasked(st: State, worker: int)
    requires Enabled(st, StartMessage(worker))
    requires Works(Next(st, StartMessage(worker)).Books(), Next(st, StartMessage(worker)).held[worker])
    ensures Next(st, StartMessage(worker)).Books().items[st.held[worker].message.work].Unasked()
  {
    StartedRuns(st.desk, st.held[worker].message);
  }

  lemma StepLeavesUnasked(st: State, step: Step, w: int)
    requires Enabled(st, step) && !step.FinishMessage? && Coherent(st.Delivery()) && Owned(st.Books())
    requires WorkersUnasked(st) && Keeps(st.Books(), Next(st, step).Books(), Asks(step))
    requires w in Next(st, step).held && Works(Next(st, step).Books(), Next(st, step).held[w])
    ensures Next(st, step).Books().items[Next(st, step).held[w].message.work].Unasked()
  {
    if step.StartMessage? && w == step.worker {
      StartLeavesUnasked(st, w);
    } else if w in st.held {
      assert Next(st, step).held[w] == st.held[w];
      assert Carries(st.Delivery(), st.held[w].message, StatusHeld(st.held[w]));
      assert Works(st.Books(), st.held[w]);
    }
  }

  lemma StepAttributes(st: State, step: Step)
    requires Enabled(st, step) && Coherent(st.Delivery()) && Owned(st.Books())
    requires AllAttributed(st.Books()) && WorkersUnasked(st)
    ensures AllAttributed(Next(st, step).Books()) && WorkersUnasked(Next(st, step))
  {
    StepKeepsLedger(st, step);
    if step.FinishMessage? {
      FinishAttributes(st, step.worker, step.outcome);
    } else {
      var next := Next(st, step);
      forall w | w in next.held && Works(next.Books(), next.held[w])
        ensures next.Books().items[next.held[w].message.work].Unasked()
      {
        StepLeavesUnasked(st, step, w);
      }
    }
  }

  lemma StartedRuns(d: Desk, m: Message)
    requires Addressed(d.books, m)
    ensures m.work in Begin(d, m).0.books.items
    ensures Begin(d, m).1 && d.books.items[m.work].kind == SelfPatch
      ==> Begin(d, m).0.books.items[m.work].status == Running
    ensures Begin(d, m).0.books.items[m.work].kind == d.books.items[m.work].kind
  {
  }

  lemma {:induction false} RunAttributes(s: State, steps: seq<Step>, t: State)
    requires Runs(s, steps, t) && Coherent(s.Delivery()) && Owned(s.Books()) && AllAttributed(s.Books())
      && WorkersUnasked(s)
    ensures AllAttributed(t.Books())
    decreases |steps|
  {
    if steps != [] {
      StepAttributes(s, steps[0]);
      DeliveryIsCoherent(s, [steps[0]], Next(s, steps[0]));
      RunAttributes(Next(s, steps[0]), steps[1..], t);
    }
  }

  /** Without a hand move of this item, only jobs ask for its activation, whatever happens to other items. */
  lemma {:induction false} OnlyJobsAsk(s: State, steps: seq<Step>, t: State, work: int)
    requires Runs(s, steps, t) && AskedAt(s.Books(), work)
    requires forall i :: 0 <= i < |steps| ==> Asks(steps[i]) != ByHand(work)
    ensures AskedAt(t.Books(), work)
    decreases |steps|
  {
    if steps != [] {
      assert Asks(steps[0]) != ByHand(work);
      StepKeepsLedger(s, steps[0]);
      OnlyJobsAsk(Next(s, steps[0]), steps[1..], t, work);
    }
  }

  /** The patch that activation would take is the one of the job that asked for activation last, exactly if it was a
      job that asked last. That is so unless a user moved this very item to waiting_approval: cancelled, ignored
      and retried jobs in between do not matter, nor does what happens to other items. */
  lemma ActivationTakesTheRightPatch(head: Tree, steps: seq<Step>, t: State, work: int)
    requires Runs(Initial(head), steps, t) && work in t.Books().items && t.Books().items[work].status == WaitingApproval
    ensures t.Books().items[work].Tracked() <==> LastAsker(t.Books().items[work].events).Some?
    ensures (forall i :: 0 <= i < |steps| ==> Asks(steps[i]) != ByHand(work)) ==> t.Books().items[work].Tracked()
  {
    InitialIsCoherent(head);
    RunAttributes(Initial(head), steps, t);
    assert t.Books().items[work].Attributed();
    if forall i :: 0 <= i < |steps| ==> Asks(steps[i]) != ByHand(work) {
      OnlyJobsAsk(Initial(head), steps, t, work);
    }
  }

  predicate Offers(e: Event) {
    e.Finished? && e.result.PatchReady?
  }

  /** The patch that activation would take is in the log: the last one offered, with the job that offered it. */
  lemma {:induction false} PatchIsLastOffered(events: seq<Event>) returns (k: int)
    requires LatestPatch(events).Some? || LatestReady(events).Some?
    ensures 0 <= k < |events| && LatestReady(events).Some? && LatestPatch(events).Some?
    ensures events[k] == Finished(LatestReady(events).value, PatchReady(LatestPatch(events).value))
    ensures forall i :: k < i < |events| ==> !Offers(events[i])
  {
    k := |events| - 1;
    if !Offers(events[k]) {
      k := PatchIsLastOffered(events[..k]);
    }
  }

  /** A hand move changes who asked last and nothing else: the patch of the last job that offered one stays the one
      that would be taken, and without any there is nothing to activate. */
  lemma HandMoveIsNotTracked(b: Books, work: int)
    requires b.Move(work, WaitingApproval, None).Ok?
    ensures var after := b.Move(work, WaitingApproval, None).value;
      && !after.items[work].Tracked()
      && LatestPatch(after.items[work].events) == LatestPatch(b.items[work].events)
      && LatestReady(after.items[work].events) == LatestReady(b.items[work].events)
      && (A.Activatable(after, work) <==> LatestPatch(b.items[work].events).Some?)
  {
    var i := b.items[work];
    assert (i.events + [Moved(WaitingApproval, None)])[..|i.events|] == i.events;
    assert LastAsker(i.events + [Moved(WaitingApproval, None)]) == None;
  }

  // ---------- what HEAD points to ----------

  /** HEAD moves only by activating an item in waiting_approval with a ready patch, to the tree that passed
      the tests, with the verification passed. */
  lemma HeadMovesOnlyTested(st: State, step: Step)
    requires Enabled(st, step)
    ensures Next(st, step).repo.head != st.repo.head ==>
      && step.ActivateItem? && A.Activatable(st.Books(), step.work)
      && step.o.tests && A.Verified(step.config, step.work in st.Books().proposals, step.o)
      && step.config.commitAfterApply
      && Next(st, step).repo.head == Patched(LatestPatch(st.Books().items[step.work].events).value, st.repo.tree)
      && Next(st, step).repo.head in NewlyTested(st, step.config, step.work, step.o)
  {
    if step.ActivateItem? && A.Activatable(st.Books(), step.work) {
      A.CommitIsTested(step.config, st.repo, LatestPatch(st.Books().items[step.work].events).value,
                       step.work in st.Books().proposals, step.o);
    }
  }

  /** In every state of every run HEAD points to the first tree or to one that passed the test command. */
  lemma {:induction false} HeadIsTested(s: State, steps: seq<Step>, t: State)
    requires Runs(s, steps, t) && s.repo.head in s.tested
    ensures t.repo.head in t.tested && s.tested <= t.tested
    decreases |steps|
  {
    if steps != [] {
      HeadMovesOnlyTested(s, steps[0]);
      HeadIsTested(Next(s, steps[0]), steps[1..], t);
    }
  }

  /** At the i-th step, taken in state u, an activation of a waiting item passed the tests on the tree that its last
      patch makes of the working tree, and the smoke check if one is due. */
  ghost predicate PassedAt(s: State, steps: seq<Step>, i: nat, u: State, tree: Tree) {
    && i < |steps| && Runs(s, steps[..i], u) && steps[i].ActivateItem?
    && var config, work, o := steps[i].config, steps[i].work, steps[i].o;
       && work in u.Books().items && u.Books().items[work].status == WaitingApproval
       && o.tests && (config.verifyActivation && work in u.Books().proposals ==> o.smoke)
       && var patch := LatestPatch(u.Books().items[work].events);
          && patch.Some? && tree == Patched(patch.value, u.repo.tree)
          && forall path :: path in patch.value ==> At(u.repo.tree, path) == patch.value[path].before
  }

  /** Wherever HEAD ends up in a run, if it moves at all, that tree passed in an activation of this run. */
  lemma {:induction false} HeadHasPassed(s: State, steps: seq<Step>, t: State)
    requires Runs(s, steps, t) && t.repo.head != s.repo.head
    ensures exists i, u :: PassedAt(s, steps, i, u, t.repo.head)
    decreases |steps|
  {
    var next := Next(s, steps[0]);
    if t.repo.head == next.repo.head {
      HeadMovesOnlyTested(s, steps[0]);
      assert steps[..0] == [];
      assert PassedAt(s, steps, 0, s, t.repo.head);
    } else {
      HeadHasPassed(next, steps[1..], t);
      var i: nat, u :| PassedAt(next, steps[1..], i, u, t.repo.head);
      assert steps[..i + 1][0] == steps[0] && steps[..i + 1][1..] == steps[1..][..i];
      assert PassedAt(s, steps, i + 1, u, t.repo.head);
    }
  }

  predicate Commits(step: Step) {
    step.ActivateItem? ==> step.config.commitAfterApply
  }

  /** Where every activation commits, working tree, index and HEAD agree after every step of every run. */
  lemma {:induction false} RepositoryStaysClean(s: State, steps: seq<Step>, t: State)
    requires Runs(s, steps, t) && s.repo.Clean() && (forall i :: 0 <= i < |steps| ==> Commits(steps[i]))
    ensures t.repo.Clean()
    decreases |steps|
  {
    if steps != [] {
      var step := steps[0];
      assert Commits(step);
      if step.ActivateItem? && A.Activatable(s.Books(), step.work) {
        A.CleanStaysClean(step.config, s.repo, LatestPatch(s.Books().items[step.work].events).value,
                          step.work in s.Books().proposals, step.o);
      }
      RepositoryStaysClean(Next(s, step), steps[1..], t);
    }
  }

  /** An activation that commits nothing leaves HEAD and the working tree as they were. */
  lemma UncommittedActivationRestores(st: State, config: A.Config, work: int, o: A.Outcomes)
    ensures var verdict := A.Activate(config, st.Books(), st.repo, work, o).2;
      var next := Next(st, ActivateItem(config, work, o));
      && (!A.Committed(verdict) ==> next.repo.head == st.repo.head && next.repo.tree == st.repo.tree)
      && (verdict.FailedAt? || verdict.ReloadFailed? ==> next.Books().items[work].status == Reviewing)
  {
    A.FailureIsReviewed(config, st.Books(), st.repo, work, o);
    if A.Activatable(st.Books(), work) {
      A.FailureRestores(config, st.repo, LatestPatch(st.Books().items[work].events).value, work in st.Books().proposals,
        o);
    }
  }

  // ---------- proposals ----------

  /** If the proposal is active, its item has been activated. */
  predicate EarnedAt(b: Books, p: int) {
    p in b.proposals && b.proposals[p].status == Active ==> p in b.items && Logged(Activated) in b.items[p].events
  }

  /** A caller asks for this proposal to become active without an activation. */
  predicate TurnsActive(step: Step, p: int) {
    step.UserTurn? && step.proposal == p && step.turn == Active
  }

  lemma EarnedStays(b: Books, c: Books, p: int)
    requires EarnedAt(b, p) && Grows(b, c)
    requires p in c.proposals && c.proposals[p].status == Active ==> p in b.proposals && b.proposals[p].status == Active
    ensures EarnedAt(c, p)
  {
    if p in c.proposals && c.proposals[p].status == Active {
      assert Extends(b.items[p], c.items[p]);
    }
  }

  lemma ActivationEarns(b: Books, work: int, verdict: A.Verdict, p: int)
    requires work in b.items
    ensures p in A.Record(b, work, verdict).proposals && A.Record(b, work, verdict).proposals[p].status == Active ==>
      (p in b.proposals && b.proposals[p].status == Active) || (p == work && verdict.Succeeded?)
  {
  }

  lemma SuccessIsLogged(b: Books, work: int)
    requires work in b.items
    ensures work in A.RecordSuccess(b, work).items && Logged(Activated) in A.RecordSuccess(b, work).items[work].events
  {
    var noted := b.Note(work, ActivationVerified).Note(work, Activated);
    var completed := noted.MoveOrNote(work, Completed, None, ActivationTransitionSkipped);
    var events := noted.items[work].events;
    assert events[|events| - 1] == Logged(Activated);
    MoveOrNoteKeeps(noted, work, Completed, None, ActivationTransitionSkipped);
    ParentKeeps(completed, work);
    ActiveKeeps(A.CompleteParent(completed, work), work);
    GrowsOn(noted, completed, A.CompleteParent(completed, work));
    GrowsOn(noted, A.CompleteParent(completed, work), A.RecordSuccess(b, work));
    assert Extends(noted.items[work], A.RecordSuccess(b, work).items[work]);
  }

  lemma RecordEarns(b: Books, work: int, verdict: A.Verdict, p: int)
    requires EarnedAt(b, p) && work in b.items
    ensures EarnedAt(A.Record(b, work, verdict), p)
  {
    ActivationEarns(b, work, verdict, p);
    if p == work && verdict.Succeeded? {
      SuccessIsLogged(b, work);
    } else {
      ActivationRecordKeeps(b, work, verdict);
      EarnedStays(b, A.Record(b, work, verdict), p);
    }
  }

  lemma ActivateEarns(st: State, config: A.Config, work: int, o: A.Outcomes, p: int)
    requires EarnedAt(st.Books(), p)
    ensures EarnedAt(Next(st, ActivateItem(config, work, o)).Books(), p)
  {
    if A.Activatable(st.Books(), work) {
      RecordEarns(st.Books(), work, A.Activate(config, st.Books(), st.repo, work, o).2, p);
    }
  }

  lemma StepEarns(st: State, step: Step, p: int)
    requires Enabled(st, step) && EarnedAt(st.Books(), p) && !TurnsActive(step, p)
    ensures EarnedAt(Next(st, step).Books(), p)
  {
    match step {
      case ActivateItem(config, work, o) => ActivateEarns(st, config, work, o, p);
      case _ =>
        StepKeepsLedger(st, step);
        StepTurnsNone(st, step, p);
        EarnedStays(st.Books(), Next(st, step).Books(), p);
    }
  }

  lemma StepTurnsNone(st: State, step: Step, p: int)
    requires Enabled(st, step) && !TurnsActive(step, p) && !step.ActivateItem?
    ensures p in Next(st, step).Books().proposals && Next(st, step).Books().proposals[p].status == Active ==>
      p in st.Books().proposals && st.Books().proposals[p].status == Active
  {
    var d := st.desk;
    match step {
      case UserMove(work, to, s) => TransitionExtends(d, work, to, s);
      case UserEnqueue(work, s) => EnqueueExtends(d, work, s);
      case UserRetry(work, s) => RetryExtends(d, work, s);
      case UserPromote(work, listed, child, s) => PromoteExtends(d, work, listed, child, s);
      case UserTurn(q, to, s) => TurnExtends(d, q, to, s);
      case StartMessage(worker) => BeginExtends(d, st.held[worker].message);
      case FinishMessage(worker, outcome) =>
        EndExtends(d, st.held[worker].message, st.held[worker].runnable, outcome);
      case FailMessage(worker) => CollapseExtends(d, st.held[worker].message);
      case _ =>
    }
  }

  /** In every run without a direct turn of this very proposal: if it is active, its item was activated. */
  lemma {:induction false} ActiveProposalsAreEarned(s: State, steps: seq<Step>, t: State, p: int)
    requires Runs(s, steps, t) && EarnedAt(s.Books(), p)
    requires forall i :: 0 <= i < |steps| ==> !TurnsActive(steps[i], p)
    ensures EarnedAt(t.Books(), p)
    decreases |steps|
  {
    if steps != [] {
      assert !TurnsActive(steps[0], p);
      StepEarns(s, steps[0], p);
      ActiveProposalsAreEarned(Next(s, steps[0]), steps[1..], t, p);
    }
  }

  /** The proposal is approved for development, and its item was not activated. */
  predicate ApprovedOnly(b: Books, p: int) {
    p in b.proposals && b.proposals[p].status == ApprovedForDev && p in b.items
      && Logged(Activated) !in b.items[p].events
  }

  /** Of all steps exactly the direct turn of a proposal that is only approved makes it active unearned. */
  lemma DirectTurnIsUnearnedExactly(st: State, step: Step, p: int)
    requires Enabled(st, step) && EarnedAt(st.Books(), p)
    ensures !EarnedAt(Next(st, step).Books(), p) <==> TurnsActive(step, p) && ApprovedOnly(st.Books(), p)
  {
    if TurnsActive(step, p) {
      DirectTurnMovesProposal(st.desk, p, step.s);
    } else {
      StepEarns(st, step, p);
    }
  }

  /** The proposal service turns a proposal active exactly if it is approved for development, and touches no item. */
  lemma DirectTurnMovesProposal(d: Desk, p: int, s: Submission)
    requires s.job !in d.books.jobs && (p in d.books.proposals ==> p in d.books.items)
    ensures var after := TurnProposal(d, p, Active, s).0;
      if p in d.books.proposals && d.books.proposals[p].status == ApprovedForDev then
        && after.books.items == d.books.items && after.books.jobs == d.books.jobs && after.queue == d.queue
        && after.books.proposals == d.books.proposals[p := d.books.proposals[p].Become(Active)]
      else after == d
  {
  }
}
