/** Capability proposals: a proposal and its work item are created and moved together. */
module CapabilityServices {
  import opened Wrappers
  import opened WorkStates
  import opened Ledgers
  import opened HarnessMemories
  import opened WorkQueues
  import opened WorkServices

  /** A new proposal with its own self-patch item. */
  function Propose(b: Books, work: int): Books
    requires work !in b.items && work !in b.proposals
  {
    var created := b.Open(work, SelfPatch, None, WorkStatus.Proposed);
    created.(proposals := created.proposals[work :=
      Proposal(ProposalStatus.Proposed, [Opened(ProposalStatus.Proposed)])])
           .Note(work, LinkedCapabilityProposal)
  }

  /** What a proposal's new status asks of its item. */
  function WorkTarget(to: ProposalStatus): Option<WorkStatus> {
    match to
    case ApprovedForDev => Some(Accepted)
    case Deferred => Some(WorkStatus.Deferred)
    case Rejected => Some(WorkStatus.Rejected)
    case _ => None
  }

  function FollowProposal(b: Books, p: int, to: ProposalStatus): Books
    requires p in b.items
  {
    var target := WorkTarget(to);
    if target.None? then b else b.MoveOrNote(p, target.value, None, ProposalTransition)
  }

  /** The proposal moves, then its item if the table allows it, and an accepted item is enqueued. */
  function TurnProposal(d: Desk, p: int, to: ProposalStatus, s: Submission): (r: (Desk, Reply))
    requires s.job !in d.books.jobs && (p in d.books.proposals ==> p in d.books.items)
    ensures r.1.Refused? ==> r.0 == d
  {
    var turned := d.books.MoveProposal(p, to);
    if turned.Err? then (d, Refused(RefusalFor(turned.error))) else
    var followed := FollowProposal(turned.value, p, to);
    if to == ApprovedForDev && MayBecome(d.books.items[p].status, Accepted) then Enqueue(d.With(followed), p, s)
    else (d.With(followed), Changed)
  }

  class CapabilityProposalService {
    const memory: HarnessMemory
    const queue: InMemoryWorkQueue
    const workItems: WorkItemService

    ghost predicate Valid() {
      workItems.memory == memory && workItems.queue == queue
    }

    ghost function Model(): Desk
      reads memory, queue
    {
      Desk(memory.Model(), queue.Model())
    }

    constructor (workItems: WorkItemService)
      ensures Valid() && this.workItems == workItems
    {
      memory, queue, this.workItems := workItems.memory, workItems.queue, workItems;
    }

    method CreateProposalWorkItem(work: int)
      requires Valid() && work !in memory.items && work !in memory.proposals
      modifies memory
      ensures memory.Model() == Propose(old(memory.Model()), work)
    {
      memory.CreateWorkItem(work, SelfPatch, None, WorkStatus.Proposed);
      memory.CreateCapabilityProposal(work, ProposalStatus.Proposed);
      memory.AddWorkEvent(work, Logged(LinkedCapabilityProposal));
    }

    method FollowWork(p: int, to: ProposalStatus)
      requires p in memory.items
      modifies memory
      ensures memory.Model() == FollowProposal(old(memory.Model()), p, to)
    {
      var target := WorkTarget(to);
      if target.Some? {
        memory.TransitionOrNote(p, target.value, None, ProposalTransition);
      }
    }

    method TransitionProposal(p: int, to: ProposalStatus, s: Submission) returns (reply: Reply)
      requires Valid() && s.job !in memory.jobs && (p in memory.proposals ==> p in memory.items)
      modifies memory, queue
      ensures (Model(), reply) == TurnProposal(old(Model()), p, to, s)
    {
      var error := memory.TransitionCapabilityProposal(p, to);
      if error.Some? {
        return Refused(RefusalFor(error.value));
      }
      var accepted := to == ApprovedForDev && MayBecome(memory.items[p].status, Accepted);
      FollowWork(p, to);
      if accepted {
        reply := workItems.EnqueueWork(p, s);
      } else {
        reply := Changed;
      }
    }
  }
}
