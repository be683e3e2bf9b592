/** The whole protocol: users, several workers and the activation take turns on one ledger and one queue. */
module Protocols {
  import opened Wrappers
  import opened WorkStates
  import opened Patches
  import opened Ledgers
  import opened LedgerLaws
  import opened WorkQueues
  import opened WorkServices
  import opened CapabilityServices
  import opened Workers
  import opened ServiceLaws
  import opened Deliveries
  import A = Activations

  /** tested holds the trees for which the activation's test command passed. */
  datatype State = State(desk: Desk, held: map<int, Holding>, repo: A.RepoData, tested: set<Tree>) {
    function Books(): Books {
      desk.books
    }

    function Delivery(): Line {
      Line(desk.books.jobs, desk.queue.waiting, held, desk.queue.acked, desk.queue.counter)
    }
  }

  function Initial(head: Tree): State {
    State(Desk(Books.Books(map[], map[], map[]), QueueData([], {}, [], 0)), map[], A.RepoData(head, head, head), {head})
  }

  /** One atomic step. Identifiers of new rows are chosen by the step and fresh. */
  datatype Step =
    | CreateItem(work: int, kind: WorkType)
    | ProposeCapability(work: int)
    | UserMove(work: int, to: WorkStatus, s: Submission)
    | UserEnqueue(work: int, s: Submission)
    | UserRetry(work: int, s: Submission)
    | UserPromote(work: int, listed: seq<int>, child: int, s: Submission)
    | UserTurn(proposal: int, turn: ProposalStatus, s: Submission)
    | AddNote(work: int)
    | TakeMessage(worker: int, names: set<QueueName>)
    | StartMessage(worker: int)
    | FinishMessage(worker: int, outcome: RunResult)
    | FailMessage(worker: int)
    | ActivateItem(config: A.Config, work: int, o: A.Outcomes)

  /** New identifiers are new, and a worker acts on what it holds. */
  ghost predicate Enabled(st: State, step: Step) {
    var b := st.Books();
    match step
    case CreateItem(work, _) => work !in b.items && work !in b.proposals
    case ProposeCapability(work) => work !in b.items && work !in b.proposals
    case UserMove(_, _, s) => s.job !in b.jobs
    case UserEnqueue(_, s) => s.job !in b.jobs
    case UserRetry(_, s) => s.job !in b.jobs
    case UserPromote(work, listed, child, s) =>
      child !in b.items && child !in b.proposals && s.job !in b.jobs && IsListing(b, work, listed)
    case UserTurn(p, _, s) => s.job !in b.jobs && (p in b.proposals ==> p in b.items)
    case AddNote(work) => work in b.items
    case TakeMessage(worker, _) => worker !in st.held
    case StartMessage(worker) => worker in st.held && !st.held[worker].started && Addressed(b, st.held[worker].message)
    case FinishMessage(worker, _) => worker in st.held && st.held[worker].started
      && Addressed(b, st.held[worker].message)
    case FailMessage(worker) => worker in st.held && Addressed(b, st.held[worker].message)
    case ActivateItem(_, _, _) => true
  }

  function Take(st: State, worker: int, names: set<QueueName>): State {
    var taken := Taken(st.desk.queue.waiting, names, 1);
    if taken == [] then st
    else st.(desk := st.desk.(queue := st.desk.queue.Take(names, 1)),
             held := st.held[worker := Holding(taken[0], false, false)])
  }

  function Start(st: State, worker: int): State
    requires worker in st.held && Addressed(st.Books(), st.held[worker].message)
  {
    var (desk, runnable) := Begin(st.desk, st.held[worker].message);
    st.(desk := desk, held := st.held[worker := Holding(st.held[worker].message, true, runnable)])
  }

  /** The trees that an activation's test run passed on. */
  function NewlyTested(st: State, config: A.Config, work: int, o: A.Outcomes): set<Tree> {
    if !A.Activatable(st.Books(), work) then {} else
    var patch := LatestPatch(st.Books().items[work].events).value;
    if A.Admit(config, st.repo, patch, o).None? && o.tests then {Patched(patch, st.repo.tree)} else {}
  }

  function Next(st: State, step: Step): State
    requires Enabled(st, step)
  {
    var d := st.desk;
    match step
    case CreateItem(work, kind) => st.(desk := d.With(d.books.Open(work, kind, None, WorkStatus.Proposed)))
    case ProposeCapability(work) => st.(desk := d.With(Propose(d.books, work)))
    case UserMove(work, to, s) => st.(desk := Transition(d, work, to, s).0)
    case UserEnqueue(work, s) => st.(desk := Enqueue(d, work, s).0)
    case UserRetry(work, s) => st.(desk := Retry(d, work, s).0)
    case UserPromote(work, listed, child, s) => st.(desk := Promote(d, work, listed, child, s).0)
    case UserTurn(p, to, s) => st.(desk := TurnProposal(d, p, to, s).0)
    case AddNote(work) => st.(desk := d.With(d.books.Note(work, NoteAdded)))
    case TakeMessage(worker, names) => Take(st, worker, names)
    case StartMessage(worker) => Start(st, worker)
    case FinishMessage(worker, outcome) =>
      var h := st.held[worker];
      st.(desk := End(d, h.message, h.runnable, outcome), held := st.held - {worker})
    case FailMessage(worker) => st.(desk := Collapse(d, st.held[worker].message), held := st.held - {worker})
    case ActivateItem(config, work, o) =>
      var (books, repo, _) := A.Activate(config, d.books, st.repo, work, o);
      st.(desk := d.With(books), repo := repo, tested := st.tested + NewlyTested(st, config, work, o))
  }

  /** The run takes the steps one after another and ends in t. */
  ghost predicate Runs(s: State, steps: seq<Step>, t: State)
    decreases |steps|
  {
    if steps == [] then s == t else Enabled(s, steps[0]) && Runs(Next(s, steps[0]), steps[1..], t)
  }

  /** Who may ask for activation in a step. */
  function Asks(step: Step): Ask {
    match step
    case UserMove(work, WaitingApproval, _) => ByHand(work)
    case FinishMessage(_, _) => ByJob
    case _ => Silent
  }

  /** The ledger laws are kept by every step; finishing is looked at on its own. */
  lemma StepKeepsLedger(st: State, step: Step)
    requires Enabled(st, step)
    ensures Keeps(st.Books(), Next(st, step).Books(), Asks(step))
  {
    var d := st.desk;
    match step {
      case CreateItem(work, kind) => OpenKeeps(d.books, work, kind, None, WorkStatus.Proposed);
      case ProposeCapability(work) => ProposeKeeps(d.books, work);
      case UserMove(work, to, s) => TransitionKeeps(d, work, to, s);
      case UserEnqueue(work, s) => EnqueueKeeps(d, work, s);
      case UserRetry(work, s) => RetryKeeps(d, work, s);
      case UserPromote(work, listed, child, s) => PromoteKeeps(d, work, listed, child, s);
      case UserTurn(p, to, s) => TurnProposalKeeps(d, p, to, s);
      case AddNote(work) => LogKeeps(d.books, work, Logged(NoteAdded));
      case TakeMessage(worker, names) =>
      case StartMessage(worker) => BeginKeeps(d, st.held[worker].message);
      case FinishMessage(worker, outcome) => EndKeeps(d, st.held[worker].message, st.held[worker].runnable, outcome);
      case FailMessage(worker) => CollapseKeeps(d, st.held[worker].message);
      case ActivateItem(config, work, o) => ActivateKeeps(config, d.books, st.repo, work, o);
    }
  }
}
