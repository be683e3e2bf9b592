/** Activation: a ready patch is applied, tested, verified and committed, or undone. */
module Activations {
  import opened Wrappers
  import opened WorkStates
  import opened Patches
  import opened Ledgers
  import opened HarnessMemories

  /** The tree of the current commit, the staged tree and the working tree. */
  datatype RepoData = RepoData(head: Tree, index: Tree, tree: Tree) {
    predicate Clean() {
      head == index == tree
    }
  }

  datatype Config = Config(requireClean: bool, commitAfterApply: bool, verifyActivation: bool, reloads: bool)

  /** How the commands and checks of one activation turn out. Whether the patch applies is not among
      them: that is decided by the patch and the tree. */
  datatype Outcomes = Outcomes(patchFileOk: bool, preflight: bool, revParse: bool, status: bool, tests: bool,
                               smoke: bool, add: bool, commit: bool, reload: bool, lateRevParse: bool)

  datatype Stage = Preflight | CleanGit | Apply | Test | Verify | Commit

  /** Refused and Late are errors that leave the item's status as it is. */
  datatype Verdict = Refused | FailedAt(stage: Stage) | ReloadFailed | Late | Succeeded

  /** The undo after a failure: the patch in reverse, which changes nothing if it does not fit. */
  function RolledBack(repo: RepoData, patch: Patch): RepoData {
    repo.(tree := Patched(Reversed(patch), repo.tree))
  }

  /** Without a proposal, or with verification disabled, there is nothing to verify. */
  predicate Verified(config: Config, hasProposal: bool, o: Outcomes) {
    config.verifyActivation && hasProposal ==> o.smoke
  }

  /** The checks before the repository is touched. */
  function Admit(config: Config, repo: RepoData, patch: Patch, o: Outcomes): Option<Verdict> {
    if !o.patchFileOk then Some(Refused)
    else if !o.preflight then Some(FailedAt(Preflight))
    else if !o.revParse || (config.requireClean && !o.status) then Some(Refused)
    else if config.requireClean && !repo.Clean() then Some(FailedAt(CleanGit))
    else if !Fits(patch, repo.tree) then Some(FailedAt(Apply))
    else None
  }

  /** Stage everything and commit it; a failed commit is unstaged. */
  function TryCommit(repo: RepoData, o: Outcomes): (RepoData, bool) {
    if !o.add then (repo, false)
    else if !o.commit then (repo.(index := repo.head), false)
    else (RepoData(repo.tree, repo.tree, repo.tree), true)
  }

  /** What happens after the commit, which is never undone. */
  function Finish(config: Config, o: Outcomes): Verdict {
    if config.reloads && !o.reload then ReloadFailed else if !o.lateRevParse then Late else Succeeded
  }

  /** The repository's side of one activation. */
  function Attempt(config: Config, repo: RepoData, patch: Patch, hasProposal: bool, o: Outcomes): (RepoData, Verdict) {
    var stop := Admit(config, repo, patch, o);
    if stop.Some? then (repo, stop.value) else
    var applied := repo.(tree := Patched(patch, repo.tree));
    if !o.tests then (RolledBack(applied, patch), FailedAt(Test))
    else if !Verified(config, hasProposal, o) then (RolledBack(applied, patch), FailedAt(Verify))
    else if !config.commitAfterApply then (applied, Finish(config, o))
    else
      var (after, committed) := TryCommit(applied, o);
      if committed then (after, Finish(config, o)) else (RolledBack(after, patch), FailedAt(Commit))
  }

  predicate Committed(v: Verdict) {
    v.ReloadFailed? || v.Late? || v.Succeeded?
  }

  /** Every activation that stops before the commit leaves the working tree and HEAD as they were. Only a
      failed commit touches the index, and puts it back to HEAD. */
  lemma FailureRestores(config: Config, repo: RepoData, patch: Patch, hasProposal: bool, o: Outcomes)
    ensures var (after, verdict) := Attempt(config, repo, patch, hasProposal, o);
      !Committed(verdict) ==>
        && after.tree == repo.tree && after.head == repo.head
        && (after.index == repo.index || (verdict == FailedAt(Commit) && o.add && after.index == repo.head))
  {
    if Fits(patch, repo.tree) {
      ReverseRestores(patch, repo.tree);
    }
  }

  /** HEAD moves only to the patched working tree, after its tests and its verification passed. */
  lemma CommitIsTested(config: Config, repo: RepoData, patch: Patch, hasProposal: bool, o: Outcomes)
    ensures var (after, verdict) := Attempt(config, repo, patch, hasProposal, o);
      && (after.head == repo.head || (Committed(verdict) && config.commitAfterApply))
      && (Committed(verdict) ==> o.tests && Verified(config, hasProposal, o) && o.preflight)
      && (Committed(verdict) ==> Fits(patch, repo.tree) && after.tree == Patched(patch, repo.tree))
      && (Committed(verdict) && config.commitAfterApply ==> after.Clean())
      && (Committed(verdict) && !config.commitAfterApply ==> after.head == repo.head && after.index == repo.index)
  {
  }

  /** A repository that must be clean and is committed to stays clean. */
  lemma CleanStaysClean(config: Config, repo: RepoData, patch: Patch, hasProposal: bool, o: Outcomes)
    requires config.commitAfterApply && repo.Clean()
    ensures Attempt(config, repo, patch, hasProposal, o).0.Clean()
  {
    FailureRestores(config, repo, patch, hasProposal, o);
    CommitIsTested(config, repo, patch, hasProposal, o);
  }

  /** A dirty repository is never touched when a clean one is required. */
  lemma DirtyIsLeftAlone(config: Config, repo: RepoData, patch: Patch, hasProposal: bool, o: Outcomes)
    requires config.requireClean && !repo.Clean()
    ensures Attempt(config, repo, patch, hasProposal, o).0 == repo
    ensures !Committed(Attempt(config, repo, patch, hasProposal, o).1)
  {
  }

  /** What the ledger records of a failed activation. */
  function RecordRejection(b: Books, work: int, remark: Remark): Books
    requires work in b.items
  {
    b.Note(work, remark).MoveOrNote(work, Reviewing, None, ActivationTransitionSkipped)
  }

  function CompleteParent(b: Books, work: int): Books
    requires work in b.items
  {
    var parent := b.items[work].parent;
    if parent.None? then b
    else if parent.value !in b.items then b.Note(work, ParentCompletionSkipped)
    else if b.items[parent.value].kind != ExternalWork then b
    else b.MoveOrNote(parent.value, Completed, None, ActivationTransitionSkipped)
  }

  function ActivateProposal(b: Books, p: int): Books {
    if p !in b.proposals then b else
    var turned := b.MoveProposal(p, Active);
    if turned.Ok? then turned.value
    else b.(proposals := b.proposals[p := b.proposals[p].(events := b.proposals[p].events + [Remarked])])
  }

  /** What the ledger records of a successful activation: the item and an external parent are completed
      if possible, and the proposal becomes active if possible. */
  function RecordSuccess(b: Books, work: int): Books
    requires work in b.items
  {
    var noted := b.Note(work, ActivationVerified).Note(work, Activated);
    var completed := noted.MoveOrNote(work, Completed, None, ActivationTransitionSkipped);
    ActivateProposal(CompleteParent(completed, work), work)
  }

  function Record(b: Books, work: int, verdict: Verdict): Books
    requires work in b.items
  {
    match verdict
    case FailedAt(_) => RecordRejection(b, work, ActivationFailed)
    case ReloadFailed => RecordRejection(b, work, ActivationReloadFailed)
    case Succeeded => RecordSuccess(b, work)
    case _ => b
  }

  /** What activation requires of the item before anything else. */
  predicate Activatable(b: Books, work: int) {
    work in b.items && b.items[work].status == WaitingApproval && LatestPatch(b.items[work].events).Some?
  }

  function Activate(config: Config, b: Books, repo: RepoData, work: int, o: Outcomes): (Books, RepoData, Verdict) {
    if !Activatable(b, work) then (b, repo, Refused) else
    var (after, verdict) := Attempt(config, repo, LatestPatch(b.items[work].events).value, work in b.proposals, o);
    (Record(b, work, verdict), after, verdict)
  }

  /** An item that activation failed is in review; every other early end leaves the ledger alone. */
  lemma FailureIsReviewed(config: Config, b: Books, repo: RepoData, work: int, o: Outcomes)
    ensures var (books, after, verdict) := Activate(config, b, repo, work, o);
      && (verdict.FailedAt? || verdict.ReloadFailed? ==> books.items[work].status == Reviewing)
      && (verdict.Refused? || verdict.Late? ==> books == b)
      && (verdict.Succeeded? ==> books.items[work].status == Completed)
  {
    if Activatable(b, work) {
      RecordIsReviewed(b, work, Activate(config, b, repo, work, o).2);
    }
  }

  lemma RecordIsReviewed(b: Books, work: int, verdict: Verdict)
    requires work in b.items && b.items[work].status == WaitingApproval
    ensures work in Record(b, work, verdict).items
    ensures verdict.FailedAt? || verdict.ReloadFailed? ==> Record(b, work, verdict).items[work].status == Reviewing
    ensures verdict.Refused? || verdict.Late? ==> Record(b, work, verdict) == b
    ensures verdict.Succeeded? ==> Record(b, work, verdict).items[work].status == Completed
  {
  }

  class Repository {
    var head: Tree
    var index: Tree
    var tree: Tree

    ghost function Model(): RepoData
      reads this
    {
      RepoData(head, index, tree)
    }

    constructor (head: Tree)
      ensures Model() == RepoData(head, head, head)
    {
      this.head, index, tree := head, head, head;
    }

    method ApplyCheck(patch: Patch) returns (ok: bool)
      ensures ok <==> Fits(patch, tree)
    {
      ok := forall path :: path in patch ==> At(tree, path) == patch[path].before;
    }

    method ApplyPatch(patch: Patch) returns (ok: bool)
      modifies this
      ensures ok <==> Fits(patch, old(tree))
      ensures Model() == old(Model()).(tree := Patched(patch, old(tree)))
    {
      ok := ApplyCheck(patch);
      tree := Patched(patch, tree);
    }

    method AddAll()
      modifies this
      ensures Model() == old(Model()).(index := old(tree))
    {
      index := tree;
    }

    method CommitIndex()
      modifies this
      ensures Model() == old(Model()).(head := old(index))
    {
      head := index;
    }

    method ResetMixed()
      modifies this
      ensures Model() == old(Model()).(index := old(head))
    {
      index := head;
    }
  }

  class ActivationService {
    const config: Config
    const memory: HarnessMemory
    const repo: Repository

    constructor (config: Config, memory: HarnessMemory, repo: Repository)
      ensures this.config == config && this.memory == memory && this.repo == repo
    {
      this.config, this.memory, this.repo := config, memory, repo;
    }

    method LatestPatchReady(work: int) returns (patch: Option<Patch>)
      requires work in memory.items
      ensures patch == LatestPatch(memory.items[work].events)
    {
      var events := memory.items[work].events;
      var i := |events|;
      assert events[..i] == events;
      while i > 0
        invariant 0 <= i <= |events|
        invariant LatestPatch(events) == LatestPatch(events[..i])
      {
        assert events[..i][..i - 1] == events[..i - 1];
        i := i - 1;
        match events[i] {
          case Finished(_, PatchReady(ready)) => return Some(ready);
          case _ =>
        }
      }
      patch := None;
    }

    method FailActivation(work: int, remark: Remark)
      requires work in memory.items
      modifies memory
      ensures memory.Model() == RecordRejection(old(memory.Model()), work, remark)
    {
      memory.AddWorkEvent(work, Logged(remark));
      memory.TransitionOrNote(work, Reviewing, None, ActivationTransitionSkipped);
    }

    method CompleteParentWork(work: int)
      requires work in memory.items
      modifies memory
      ensures memory.Model() == CompleteParent(old(memory.Model()), work)
    {
      var parent := memory.items[work].parent;
      if parent.None? {
        return;
      }
      if parent.value !in memory.items {
        memory.AddWorkEvent(work, Logged(ParentCompletionSkipped));
        return;
      }
      if memory.items[parent.value].kind == ExternalWork {
        memory.TransitionOrNote(parent.value, Completed, None, ActivationTransitionSkipped);
      }
    }

    method RecordActivated(work: int)
      requires work in memory.items
      modifies memory
      ensures memory.Model() == RecordSuccess(old(memory.Model()), work)
    {
      memory.AddWorkEvent(work, Logged(ActivationVerified));
      memory.AddWorkEvent(work, Logged(Activated));
      memory.TransitionOrNote(work, Completed, None, ActivationTransitionSkipped);
      CompleteParentWork(work);
      if work in memory.proposals {
        var error := memory.TransitionCapabilityProposal(work, Active);
        if error.Some? {
          memory.AddProposalRemark(work);
        }
      }
    }

    method CommitActivation(o: Outcomes) returns (ok: bool)
      modifies repo
      ensures (repo.Model(), ok) == TryCommit(old(repo.Model()), o)
    {
      if !o.add {
        return false;
      }
      repo.AddAll();
      if !o.commit {
        repo.ResetMixed();
        return false;
      }
      repo.CommitIndex();
      ok := true;
    }

    /** From the preflight check to the commit and the reload. */
    method ChangeRepository(patch: Patch, hasProposal: bool, o: Outcomes) returns (verdict: Verdict)
      modifies repo
      ensures (repo.Model(), verdict) == Attempt(config, old(repo.Model()), patch, hasProposal, o)
    {
      if !o.patchFileOk {
        return Refused;
      }
      if !o.preflight {
        return FailedAt(Preflight);
      }
      if !o.revParse || (config.requireClean && !o.status) {
        return Refused;
      }
      if config.requireClean && !(repo.head == repo.index == repo.tree) {
        return FailedAt(CleanGit);
      }
      var applies := repo.ApplyCheck(patch);
      if !applies {
        return FailedAt(Apply);
      }
      applies := repo.ApplyPatch(patch);
      if !o.tests {
        var undone := repo.ApplyPatch(Reversed(patch));
        return FailedAt(Test);
      }
      if config.verifyActivation && hasProposal && !o.smoke {
        var undone := repo.ApplyPatch(Reversed(patch));
        return FailedAt(Verify);
      }
      if config.commitAfterApply {
        var committed := CommitActivation(o);
        if !committed {
          var undone := repo.ApplyPatch(Reversed(patch));
          return FailedAt(Commit);
        }
      }
      verdict := Finish(config, o);
    }

    method ActivateWorkItem(work: int, o: Outcomes) returns (verdict: Verdict)
      modifies memory, repo
      ensures (memory.Model(), repo.Model(), verdict)
           == Activate(config, old(memory.Model()), old(repo.Model()), work, o)
    {
      if work !in memory.items || memory.items[work].status != WaitingApproval {
        return Refused;
      }
      var patch := LatestPatchReady(work);
      if patch.None? {
        return Refused;
      }
      verdict := ChangeRepository(patch.value, work in memory.proposals, o);
      match verdict {
        case FailedAt(_) => FailActivation(work, ActivationFailed);
        case ReloadFailed => FailActivation(work, ActivationReloadFailed);
        case Succeeded => RecordActivated(work);
        case _ =>
      }
    }
  }
}
