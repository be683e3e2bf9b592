/** Which outcome of which command gives which end of an activation. */
module ActivationLaws {
  import opened Wrappers
  import opened WorkStates
  import opened Patches
  import opened Ledgers
  import opened Activations

  /** One thing that may go wrong, and how the activation ends if nothing went wrong before it. */
  datatype Hurdle = Hurdle(fails: bool, end: Verdict)

  function Hurdles(config: Config, repo: RepoData, patch: Patch, hasProposal: bool, o: Outcomes): seq<Hurdle> {
    [Hurdle(!o.patchFileOk, Refused),
     Hurdle(!o.preflight, FailedAt(Preflight)),
     Hurdle(!o.revParse, Refused),
     Hurdle(config.requireClean && !o.status, Refused),
     Hurdle(config.requireClean && (repo.index != repo.head || repo.tree != repo.head), FailedAt(CleanGit)),
     Hurdle(exists path :: path in patch && At(repo.tree, path) != patch[path].before, FailedAt(Apply)),
     Hurdle(!o.tests, FailedAt(Test)),
     Hurdle(config.verifyActivation && hasProposal && !o.smoke, FailedAt(Verify)),
     Hurdle(config.commitAfterApply && !(o.add && o.commit), FailedAt(Stage.Commit)),
     Hurdle(config.reloads && !o.reload, ReloadFailed),
     Hurdle(!o.lateRevParse, Late)]
  }

  /** The end that the first failing hurdle from position i on brings. */
  function FirstEnd(hurdles: seq<Hurdle>, i: nat): Verdict
    requires i <= |hurdles|
    decreases |hurdles| - i
  {
    if i == |hurdles| then Succeeded else if hurdles[i].fails then hurdles[i].end else FirstEnd(hurdles, i + 1)
  }

  lemma CleanIsHurdle(repo: RepoData)
    ensures repo.Clean() <==> !(repo.index != repo.head || repo.tree != repo.head)
  {
  }

  lemma ChecksEnd(config: Config, repo: RepoData, patch: Patch, hasProposal: bool, o: Outcomes)
    ensures var hurdles := Hurdles(config, repo, patch, hasProposal, o);
      FirstEnd(hurdles, 0) == if Admit(config, repo, patch, o).Some? then Admit(config, repo, patch, o).value
                              else FirstEnd(hurdles, 6)
  {
    var hurdles := Hurdles(config, repo, patch, hasProposal, o);
    CleanIsHurdle(repo);
    assert hurdles[5].fails <==> !Fits(patch, repo.tree);
    assert FirstEnd(hurdles, 4) == if hurdles[4].fails then hurdles[4].end
                                   else if hurdles[5].fails then hurdles[5].end else FirstEnd(hurdles, 6);
    assert FirstEnd(hurdles, 2) == if hurdles[2].fails || hurdles[3].fails then Refused else FirstEnd(hurdles, 4);
  }

  lemma CommandsEnd(config: Config, repo: RepoData, patch: Patch, hasProposal: bool, o: Outcomes)
    requires Admit(config, repo, patch, o).None?
    ensures Attempt(config, repo, patch, hasProposal, o).1 == FirstEnd(Hurdles(config, repo, patch, hasProposal, o), 6)
  {
    var hurdles := Hurdles(config, repo, patch, hasProposal, o);
    assert FirstEnd(hurdles, 9) == if hurdles[9].fails then ReloadFailed
                                   else if hurdles[10].fails then Late else Succeeded by {
      assert FirstEnd(hurdles, 11) == Succeeded;
    }
    assert FirstEnd(hurdles, 7) == if hurdles[7].fails then FailedAt(Verify)
                                   else if hurdles[8].fails then FailedAt(Stage.Commit) else FirstEnd(hurdles, 9);
  }

  /** How an attempt ends is decided by the first hurdle that fails, in the order of the commands. */
  lemma EndIsFirstFailure(config: Config, repo: RepoData, patch: Patch, hasProposal: bool, o: Outcomes)
    ensures Attempt(config, repo, patch, hasProposal, o).1 == FirstEnd(Hurdles(config, repo, patch, hasProposal, o), 0)
  {
    ChecksEnd(config, repo, patch, hasProposal, o);
    if Admit(config, repo, patch, o).None? {
      CommandsEnd(config, repo, patch, hasProposal, o);
    }
  }

  /** The commands before the reload all succeed. */
  predicate GoesWell(config: Config, repo: RepoData, patch: Patch, hasProposal: bool, o: Outcomes) {
    && o.patchFileOk && o.preflight && o.revParse && o.tests && Fits(patch, repo.tree)
    && (config.requireClean ==> o.status && repo.Clean())
    && (config.verifyActivation && hasProposal ==> o.smoke)
    && (config.commitAfterApply ==> o.add && o.commit)
  }

  /** What the item's log gains. */
  predicate Gains(b: Books, after: Books, work: int, status: WorkStatus, tail: seq<Event>)
    requires work in b.items
  {
    work in after.items && after.items[work].status == status && after.items[work].events == b.items[work].events + tail
  }

  /** After everything else went well, a reload that fails leaves the patched tree committed but sends the item to
      review and touches no proposal; a last rev-parse that fails leaves the ledger as it was; and only if neither
      fails the activation succeeds. */
  lemma ReloadAndRevParse(config: Config, b: Books, repo: RepoData, work: int, o: Outcomes)
    requires Activatable(b, work)
    requires GoesWell(config, repo, LatestPatch(b.items[work].events).value, work in b.proposals, o)
    ensures var patched := Patched(LatestPatch(b.items[work].events).value, repo.tree);
      var (books, after, verdict) := Activate(config, b, repo, work, o);
      && after == (if config.commitAfterApply then RepoData(patched, patched, patched) else repo.(tree := patched))
      && (config.reloads && !o.reload ==>
            && verdict == ReloadFailed && books.proposals == b.proposals && books.jobs == b.jobs
            && Gains(b, books, work, Reviewing, [Logged(ActivationReloadFailed), Moved(Reviewing, None)]))
      && ((config.reloads ==> o.reload) && !o.lateRevParse ==> verdict == Late && books == b)
      && (verdict == Succeeded <==> (config.reloads ==> o.reload) && o.lateRevParse)
  {
    var patch := LatestPatch(b.items[work].events).value;
    assert Admit(config, repo, patch, o).None?;
    if config.reloads && !o.reload {
      RejectionIsLogged(b, work, ActivationReloadFailed);
    }
  }

  lemma RejectionIsLogged(b: Books, work: int, remark: Remark)
    requires work in b.items && b.items[work].status == WaitingApproval
    ensures Gains(b, RecordRejection(b, work, remark), work, Reviewing, [Logged(remark), Moved(Reviewing, None)])
    ensures RecordRejection(b, work, remark).proposals == b.proposals && RecordRejection(b, work, remark).jobs == b.jobs
  {
  }

  /** An activation that fails before the commit says so in the item's log and touches neither proposal nor job. */
  lemma FailureIsLogged(config: Config, b: Books, repo: RepoData, work: int, o: Outcomes)
    requires Activatable(b, work) && Activate(config, b, repo, work, o).2.FailedAt?
    ensures var books := Activate(config, b, repo, work, o).0;
      && Gains(b, books, work, Reviewing, [Logged(ActivationFailed), Moved(Reviewing, None)])
      && books.proposals == b.proposals && books.jobs == b.jobs
  {
    RejectionIsLogged(b, work, ActivationFailed);
  }

  /** Verification is asked for exactly if it is enabled and there is a proposal; then a failed smoke check stops the
      activation before the commit and undoes the patch. */
  lemma SmokeStops(config: Config, repo: RepoData, patch: Patch, hasProposal: bool, o: Outcomes)
    requires Admit(config, repo, patch, o).None? && o.tests && !o.smoke
    ensures Attempt(config, repo, patch, hasProposal, o).1 == FailedAt(Verify)
      <==> config.verifyActivation && hasProposal
    ensures config.verifyActivation && hasProposal ==> Attempt(config, repo, patch, hasProposal, o).0 == repo
  {
    ReverseRestores(patch, repo.tree);
  }
}
