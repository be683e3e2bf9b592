/** What every ledger operation keeps: each status column is the fold of its log, and the patch that
    activation would take belongs to the job that asked for activation last. */
module LedgerLaws {
  import opened Wrappers
  import opened WorkStates
  import opened Ledgers

  ghost predicate AllSound(b: Books) {
    && (forall w :: w in b.items ==> b.items[w].Sound())
    && (forall p :: p in b.proposals ==> b.proposals[p].Sound())
  }

  ghost predicate AllAttributed(b: Books) {
    forall w :: w in b.items ==> b.items[w].Attributed()
  }

  predicate AskedAt(b: Books, w: int) {
    w in b.items ==> b.items[w].Asked()
  }

  /** The log is append-only, and no item disappears or changes its type or parent. */
  ghost predicate Grows(b: Books, c: Books) {
    forall w :: w in b.items ==> w in c.items && Extends(b.items[w], c.items[w])
  }

  predicate Extends(i: Item, j: Item) {
    i.kind == j.kind && i.parent == j.parent && i.events <= j.events
  }

  /** No item starts to wait for activation on behalf of a job. */
  ghost predicate NoNewAsk(b: Books, c: Books) {
    forall w :: w in b.items && w in c.items && b.items[w].Unasked() ==> c.items[w].Unasked()
  }

  /** Who may ask for activation in a step: nobody, a job, or a user for the given item. */
  datatype Ask = Silent | ByJob | ByHand(work: int)

  function AskOf(work: int, to: WorkStatus, job: Option<int>): Ask {
    if to != WaitingApproval then Silent else if job.Some? then ByJob else ByHand(work)
  }

  /** The step from b to c keeps the laws. A job that asks changes whose patch is waiting; a user who asks
      does so for one item only. */
  ghost predicate Keeps(b: Books, c: Books, ask: Ask) {
    && Grows(b, c)
    && (AllSound(b) ==> AllSound(c))
    && (!ask.ByJob? ==> NoNewAsk(b, c) && (AllAttributed(b) ==> AllAttributed(c)))
    && (forall w :: ask != ByHand(w) && AskedAt(b, w) ==> AskedAt(c, w))
  }

  function Join(first: Ask, second: Ask): Ask {
    if first.Silent? then second else first
  }

  lemma ThenKeeps(b: Books, c: Books, d: Books, first: Ask, second: Ask)
    requires Keeps(b, c, first) && Keeps(c, d, second) && (first.Silent? || second.Silent? || first == second)
    ensures Keeps(b, d, Join(first, second))
  {
  }

  /** The event neither asks for activation nor offers a patch, and does not change the status. */
  predicate Quiet(e: Event) {
    match e
    case Finished(_, result) => !result.PatchReady?
    case Logged(_) => true
    case _ => false
  }

  lemma AddKeeps(i: Item, e: Event)
    ensures !e.Created? && !e.Moved? && i.Sound() ==> i.Add(e).Sound()
    ensures Quiet(e) && i.Attributed() ==> i.Add(e).Attributed()
    ensures !e.Created? && !e.Moved? && i.Asked() ==> i.Add(e).Asked()
    ensures !e.Created? && !e.Moved? && i.Unasked() ==> i.Add(e).Unasked()
  {
    assert (i.events + [e])[..|i.events|] == i.events;
  }

  lemma BecomeKeeps(i: Item, to: WorkStatus, job: Option<int>)
    requires MayBecome(i.status, to)
    ensures i.Sound() ==> i.Become(to, job).Sound()
    ensures !AskOf(0, to, job).ByJob? ==> i.Become(to, job).Attributed() && i.Become(to, job).Unasked()
    ensures !AskOf(0, to, job).ByHand? ==> i.Become(to, job).Asked()
  {
    assert (i.events + [Moved(to, job)])[..|i.events|] == i.events;
  }

  lemma OpenKeeps(b: Books, work: int, kind: WorkType, parent: Option<int>, status: WorkStatus)
    requires work !in b.items && status != WaitingApproval
    ensures Keeps(b, b.Open(work, kind, parent, status), Silent)
  {
  }

  lemma LogKeeps(b: Books, work: int, e: Event)
    requires work in b.items && !e.Created? && !e.Moved?
    ensures Keeps(b, b.Log(work, e), if Quiet(e) then Silent else ByJob)
  {
    AddKeeps(b.items[work], e);
  }

  lemma MoveKeeps(b: Books, work: int, to: WorkStatus, job: Option<int>)
    requires b.Move(work, to, job).Ok?
    ensures Keeps(b, b.Move(work, to, job).value, AskOf(work, to, job))
  {
    BecomeKeeps(b.items[work], to, job);
  }

  lemma MoveOrNoteKeeps(b: Books, work: int, to: WorkStatus, job: Option<int>, otherwise: Remark)
    requires work in b.items
    ensures Keeps(b, b.MoveOrNote(work, to, job, otherwise), AskOf(work, to, job))
  {
    if b.Move(work, to, job).Ok? {
      MoveKeeps(b, work, to, job);
    } else {
      LogKeeps(b, work, Logged(otherwise));
    }
  }

  lemma SetJobKeeps(b: Books, id: int, job: Job, e: Event)
    requires id in b.jobs && job.work in b.items && job.work == b.jobs[id].work && !e.Created? && !e.Moved?
    ensures Keeps(b, b.SetJob(id, job, e), if Quiet(e) then Silent else ByJob)
  {
    LogKeeps(b.PutJob(id, job), job.work, e);
  }

  lemma CreateJobKeeps(b: Books, id: int, work: int, maxAttempts: int)
    requires work in b.items && id !in b.jobs
    ensures Keeps(b, b.CreateJob(id, work, maxAttempts), Silent)
  {
    var row := Job(work, b.items[work].kind, Fresh, 0, Max(1, maxAttempts), None);
    LogKeeps(b.PutJob(id, row), work, Logged(JobCreatedRemark));
  }

  lemma TurnKeeps(p: Proposal, to: ProposalStatus)
    requires MayTurn(p.status, to) && p.Sound()
    ensures p.Become(to).Sound()
  {
    assert (p.events + [Turned(to)])[..|p.events|] == p.events;
  }

  lemma RemarkKeeps(p: Proposal)
    requires p.Sound()
    ensures p.(events := p.events + [Remarked]).Sound()
  {
    assert (p.events + [Remarked])[..|p.events|] == p.events;
  }

  lemma MoveProposalKeeps(b: Books, p: int, to: ProposalStatus)
    requires b.MoveProposal(p, to).Ok?
    ensures Keeps(b, b.MoveProposal(p, to).value, Silent)
  {
    if b.proposals[p].Sound() {
      TurnKeeps(b.proposals[p], to);
    }
  }
}
