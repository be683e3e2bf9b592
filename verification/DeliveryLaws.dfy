/** Every step of the protocol keeps jobs and messages in order. */
module DeliveryLaws {
  import opened Wrappers
  import opened WorkStates
  import opened Ledgers
  import opened WorkQueues
  import opened WorkServices
  import opened CapabilityServices
  import opened Workers
  import opened Deliveries
  import opened Protocols
  import opened LedgerLaws
  import A = Activations

  function LineOf(d: Desk, held: map<int, Holding>): Line {
    Line(d.books.jobs, d.queue.waiting, held, d.queue.acked, d.queue.counter)
  }

  /** Jobs belong to known items and carry their type. */
  ghost predicate Owned(b: Books) {
    forall j :: j in b.jobs ==> b.jobs[j].work in b.items && b.jobs[j].kind == b.items[b.jobs[j].work].kind
  }

  lemma SubmitLine(d: Desk, held: map<int, Holding>, work: int, s: Submission, b: Books)
    requires Coherent(LineOf(d, held)) && s.job !in d.books.jobs && NoActive(LineOf(d, held), work)
    requires work in b.items
    requires b.jobs == d.books.jobs[s.job := Job(work, b.items[work].kind, Fresh, 0, Max(1, s.maxAttempts), None)]
    ensures Coherent(LineOf(Submit(d.With(b), s.job, s.reachable).0, held))
  {
    var l, kind, most := LineOf(d, held), b.items[work].kind, Max(1, s.maxAttempts);
    var r := LineOf(Submit(d.With(b), s.job, s.reachable).0, held);
    if s.reachable {
      assert r.jobs == AfterPublish(l, s.job, work, kind, most).jobs;
      PublishKeepsCoherent(l, s.job, work, kind, most);
    } else {
      assert r.jobs == AfterNoPublish(l, s.job, work, kind, most).jobs;
      NoPublishKeepsCoherent(l, s.job, work, kind, most);
    }
  }

  lemma NothingActive(d: Desk, held: map<int, Holding>, work: int)
    requires !d.books.HasActiveJob(work)
    ensures NoActive(LineOf(d, held), work)
  {
  }

  lemma EnqueueLine(d: Desk, held: map<int, Holding>, work: int, s: Submission)
    requires Coherent(LineOf(d, held)) && s.job !in d.books.jobs
    ensures Coherent(LineOf(Enqueue(d, work, s).0, held))
  {
    if work in d.books.items && !d.books.HasActiveJob(work) {
      NothingActive(d, held, work);
      SubmitLine(d, held, work, s, d.books.CreateJob(s.job, work, s.maxAttempts));
    }
  }

  lemma ResubmitLine(d: Desk, held: map<int, Holding>, work: int, s: Submission)
    requires Coherent(LineOf(d, held)) && s.job !in d.books.jobs && !d.books.HasActiveJob(work)
    requires work in d.books.items && Retryable(d.books.items[work].status)
    ensures Coherent(LineOf(Resubmit(d, work, s).0, held))
  {
    var running := d.books.CreateJob(s.job, work, s.maxAttempts).Move(work, Running, Some(s.job)).value;
    NothingActive(d, held, work);
    SubmitLine(d, held, work, s, running);
    assert LineOf(Resubmit(d, work, s).0, held) == LineOf(Submit(d.With(running), s.job, s.reachable).0, held);
  }

  lemma RetryLine(d: Desk, held: map<int, Holding>, work: int, s: Submission)
    requires Coherent(LineOf(d, held)) && s.job !in d.books.jobs
    ensures Coherent(LineOf(Retry(d, work, s).0, held))
  {
    if !Retry(d, work, s).1.Refused? && !Retry(d, work, s).1.ActiveJobExists? {
      ResubmitLine(d, held, work, s);
    }
  }

  /** Work done on the items alone leaves the line alone. */
  lemma SameLine(d: Desk, b: Books, held: map<int, Holding>)
    requires b.jobs == d.books.jobs
    ensures LineOf(d.With(b), held) == LineOf(d, held)
  {
  }

  lemma TransitionLine(d: Desk, held: map<int, Holding>, work: int, to: WorkStatus, s: Submission)
    requires Coherent(LineOf(d, held)) && s.job !in d.books.jobs
    ensures Coherent(LineOf(Transition(d, work, to, s).0, held))
  {
    var moved := d.books.Move(work, to, None);
    if moved.Ok? {
      SameLine(d, moved.value, held);
      EnqueueLine(d.With(moved.value), held, work, s);
    }
  }

  lemma PromoteLine(d: Desk, held: map<int, Holding>, work: int, listed: seq<int>, child: int, s: Submission)
    requires Coherent(LineOf(d, held)) && s.job !in d.books.jobs
    requires child !in d.books.items && IsListing(d.books, work, listed)
    ensures Coherent(LineOf(Promote(d, work, listed, child, s).0, held))
  {
    if Promote(d, work, listed, child, s).0 != d {
      var created := d.books.Open(child, SelfPatch, Some(work), Accepted);
      var noted := created.Note(work, PromotedToSelfPatch).Note(work, NoteAdded);
      SameLine(d, noted, held);
      EnqueueLine(d.With(noted), held, child, s);
    }
  }

  lemma TurnLine(d: Desk, held: map<int, Holding>, p: int, to: ProposalStatus, s: Submission)
    requires Coherent(LineOf(d, held)) && s.job !in d.books.jobs && (p in d.books.proposals ==> p in d.books.items)
    ensures Coherent(LineOf(TurnProposal(d, p, to, s).0, held))
  {
    var turned := d.books.MoveProposal(p, to);
    if turned.Ok? {
      var followed := FollowProposal(turned.value, p, to);
      SameLine(d, followed, held);
      EnqueueLine(d.With(followed), held, p, s);
    }
  }

  lemma StartLine(st: State, worker: int)
    requires Coherent(st.Delivery()) && worker in st.held && !st.held[worker].started
    requires Addressed(st.Books(), st.held[worker].message)
    ensures Coherent(Start(st, worker).Delivery())
  {
    var m := st.held[worker].message;
    var runnable := Begin(st.desk, m).1;
    BeginKeepsCoherent(st.Delivery(), worker, runnable);
    assert Start(st, worker).Delivery() == AfterBegin(st.Delivery(), worker, runnable);
  }

  lemma EndLine(d: Desk, held: map<int, Holding>, worker: int, outcome: RunResult)
    requires Coherent(LineOf(d, held)) && worker in held && Addressed(d.books, held[worker].message)
    ensures Coherent(LineOf(End(d, held[worker].message, held[worker].runnable, outcome), held - {worker}))
    ensures NoActive(LineOf(End(d, held[worker].message, held[worker].runnable, outcome), held - {worker}),
                     held[worker].message.work)
  {
    var m := held[worker].message;
    SettleKeepsCoherent(LineOf(d, held), worker, Done);
    SettleFrees(LineOf(d, held), worker, Done);
    assert LineOf(End(d, m, held[worker].runnable, outcome), held - {worker})
      == AfterSettle(LineOf(d, held), worker, Done);
  }

  lemma CollapseLine(d: Desk, held: map<int, Holding>, worker: int)
    requires Coherent(LineOf(d, held)) && worker in held && Addressed(d.books, held[worker].message)
    ensures Coherent(LineOf(Collapse(d, held[worker].message), held - {worker}))
    ensures held[worker].message.kind == SelfPatch ==>
      NoActive(LineOf(Collapse(d, held[worker].message), held - {worker}), held[worker].message.work)
  {
    var m := held[worker].message;
    var s := AfterFailure(d.books.jobs[m.job], m.kind != SelfPatch);
    SettleKeepsCoherent(LineOf(d, held), worker, s);
    assert LineOf(Collapse(d, m), held - {worker}) == AfterSettle(LineOf(d, held), worker, s);
    if m.kind == SelfPatch {
      SettleFrees(LineOf(d, held), worker, s);
    }
  }

  /** Steps that create or note items, and the activation, touch no job and no message. */
  predicate OnItems(step: Step) {
    step.CreateItem? || step.ProposeCapability? || step.AddNote? || step.ActivateItem?
  }

  lemma ItemStepLine(st: State, step: Step)
    requires Enabled(st, step) && OnItems(step)
    ensures Next(st, step).Delivery() == st.Delivery()
  {
    if step.ActivateItem? {
      ActivateSameJobs(step.config, st.Books(), st.repo, step.work, step.o);
    }
  }

  lemma ActivateSameJobs(config: A.Config, b: Books, repo: A.RepoData, work: int, o: A.Outcomes)
    ensures A.Activate(config, b, repo, work, o).0.jobs == b.jobs
  {
    if A.Activatable(b, work) {
      RecordSameJobs(b, work, A.Activate(config, b, repo, work, o).2);
    }
  }

  lemma RecordSameJobs(b: Books, work: int, verdict: A.Verdict)
    requires work in b.items
    ensures A.Record(b, work, verdict).jobs == b.jobs
  {
  }

  lemma StepKeepsLine(st: State, step: Step)
    requires Enabled(st, step) && Coherent(st.Delivery())
    ensures Coherent(Next(st, step).Delivery())
  {
    var d := st.desk;
    match step {
      case UserMove(work, to, s) => TransitionLine(d, st.held, work, to, s);
      case UserEnqueue(work, s) => EnqueueLine(d, st.held, work, s);
      case UserRetry(work, s) => RetryLine(d, st.held, work, s);
      case UserPromote(work, listed, child, s) => PromoteLine(d, st.held, work, listed, child, s);
      case UserTurn(p, to, s) => TurnLine(d, st.held, p, to, s);
      case TakeMessage(worker, names) =>
        TakeKeepsCoherent(st.Delivery(), worker, names);
        assert Next(st, step).Delivery() == AfterTake(st.Delivery(), worker, names);
      case StartMessage(worker) => StartLine(st, worker);
      case FinishMessage(worker, outcome) => EndLine(d, st.held, worker, outcome);
      case FailMessage(worker) => CollapseLine(d, st.held, worker);
      case _ => ItemStepLine(st, step);
    }
  }

  /** A new job row, if there is one, is for a known item and has its type. */
  ghost predicate JobsExtend(b: Books, c: Books) {
    forall j :: j in c.jobs ==>
      if j in b.jobs then c.jobs[j].work == b.jobs[j].work && c.jobs[j].kind == b.jobs[j].kind
      else c.jobs[j].work in c.items && c.jobs[j].kind == c.items[c.jobs[j].work].kind
  }

  lemma OwnedStays(b: Books, c: Books)
    requires Owned(b) && JobsExtend(b, c) && Grows(b, c)
    ensures Owned(c)
  {
    forall j | j in c.jobs ensures c.jobs[j].work in c.items && c.jobs[j].kind == c.items[c.jobs[j].work].kind {
    }
  }

  lemma EnqueueExtends(d: Desk, work: int, s: Submission)
    requires s.job !in d.books.jobs
    ensures JobsExtend(d.books, Enqueue(d, work, s).0.books)
    ensures Enqueue(d, work, s).0.books.proposals == d.books.proposals
  {
  }

  lemma TransitionExtends(d: Desk, work: int, to: WorkStatus, s: Submission)
    requires s.job !in d.books.jobs
    ensures JobsExtend(d.books, Transition(d, work, to, s).0.books)
    ensures Transition(d, work, to, s).0.books.proposals == d.books.proposals
  {
  }

  lemma RetryExtends(d: Desk, work: int, s: Submission)
    requires s.job !in d.books.jobs
    ensures JobsExtend(d.books, Retry(d, work, s).0.books)
    ensures Retry(d, work, s).0.books.proposals == d.books.proposals
  {
  }

  lemma PromoteExtends(d: Desk, work: int, listed: seq<int>, child: int, s: Submission)
    requires s.job !in d.books.jobs && child !in d.books.items && IsListing(d.books, work, listed)
    ensures JobsExtend(d.books, Promote(d, work, listed, child, s).0.books)
    ensures Promote(d, work, listed, child, s).0.books.proposals == d.books.proposals
  {
  }

  lemma TurnExtends(d: Desk, p: int, to: ProposalStatus, s: Submission)
    requires s.job !in d.books.jobs && (p in d.books.proposals ==> p in d.books.items)
    ensures JobsExtend(d.books, TurnProposal(d, p, to, s).0.books)
    ensures var turned := d.books.MoveProposal(p, to);
      TurnProposal(d, p, to, s).0.books.proposals == if turned.Ok? then turned.value.proposals else d.books.proposals
  {
  }

  lemma BeginExtends(d: Desk, m: Message)
    requires Addressed(d.books, m)
    ensures JobsExtend(d.books, Begin(d, m).0.books)
    ensures Begin(d, m).0.books.proposals == d.books.proposals
  {
  }

  lemma EndExtends(d: Desk, m: Message, runnable: bool, outcome: RunResult)
    requires Addressed(d.books, m)
    ensures JobsExtend(d.books, End(d, m, runnable, outcome).books)
    ensures End(d, m, runnable, outcome).books.proposals == d.books.proposals
  {
  }

  lemma CollapseExtends(d: Desk, m: Message)
    requires Addressed(d.books, m)
    ensures JobsExtend(d.books, Collapse(d, m).books)
    ensures Collapse(d, m).books.proposals == d.books.proposals
  {
  }

  lemma StepExtendsJobs(st: State, step: Step)
    requires Enabled(st, step)
    ensures JobsExtend(st.Books(), Next(st, step).Books())
  {
    var d := st.desk;
    match step {
      case UserMove(work, to, s) => TransitionExtends(d, work, to, s);
      case UserEnqueue(work, s) => EnqueueExtends(d, work, s);
      case UserRetry(work, s) => RetryExtends(d, work, s);
      case UserPromote(work, listed, child, s) => PromoteExtends(d, work, listed, child, s);
      case UserTurn(p, to, s) => TurnExtends(d, p, to, s);
      case TakeMessage(worker, names) =>
      case StartMessage(worker) => BeginExtends(d, st.held[worker].message);
      case FinishMessage(worker, outcome) =>
        EndExtends(d, st.held[worker].message, st.held[worker].runnable, outcome);
      case FailMessage(worker) => CollapseExtends(d, st.held[worker].message);
      case _ => ItemStepLine(st, step);
    }
  }
}
