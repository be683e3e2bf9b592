/** The task runner: creating, approving, rejecting and running one task, with several calls in progress at once. */
module TaskRunners {
  import opened Wrappers
  import opened SafetyGates

  datatype TaskStatus =
    | Created | Validated | WaitingApproval | Ready | Running | Deciding | Executing | Evaluating
    | Completed | Failed | Cancelled

  predicate MayBecome(s: TaskStatus, to: TaskStatus) {
    match s
    case Created => to in {Validated, Failed, Cancelled}
    case Validated => to in {Ready, WaitingApproval, Failed, Cancelled}
    case WaitingApproval => to in {Ready, Failed, Cancelled}
    case Ready => to in {Running, Failed, Cancelled}
    case Running => to in {Deciding, Executing, Failed, Cancelled}
    case Deciding => to in {Executing, Failed, Cancelled}
    case Executing => to in {Evaluating, Failed, Cancelled}
    case Evaluating => to in {Completed, Failed, Deciding, Cancelled}
    case _ => false
  }

  /** How far one call of run has got. */
  datatype Phase = Choosing | Executes(action: string) | Records(action: string)

  /** A task row, the run calls in progress, and the actions executed for it so far. */
  datatype TaskData = TaskData(spec: TaskSpec, status: TaskStatus, runs: map<int, Phase>, executed: seq<string>) {
    function To(next: TaskStatus): TaskData {
      if MayBecome(status, next) then this.(status := next) else this
    }

    function Ends(run: int): TaskData {
      this.(runs := runs - {run})
    }
  }

  /** The steps between which calls interleave. A refused transition raises and ends the call. */
  datatype Step =
    | Validate
    | Route
    | Approve
    | Reject
    | DryRunCall
    | Admit(run: int)
    | Decide(run: int)
    | Execute(run: int)
    | Record(run: int, success: bool)
    | Crash(run: int)

  predicate Enabled(t: TaskData, step: Step) {
    match step
    case Admit(run) => run !in t.runs
    case Decide(run) => run in t.runs && t.runs[run].Choosing?
    case Execute(run) => run in t.runs && t.runs[run].Executes?
    case Record(run, _) => run in t.runs && t.runs[run].Records?
    case Crash(run) => run in t.runs
    case _ => true
  }

  function Cands(t: TaskData): seq<string> {
    Candidates(t.spec.allowed, t.spec.blocked)
  }

  /** Without candidates the task fails whatever its status; only a ready task is taken up. */
  function AfterAdmit(t: TaskData, run: int): TaskData {
    if Cands(t) == [] then t.(status := Failed)
    else if t.status == Ready then t.(status := Deciding, runs := t.runs[run := Choosing])
    else t
  }

  /** Nothing allowed fails the task; a dry run completes it without the table; an approval asked for here
      is refused by the table and leaves the task as it is. */
  function AfterDecide(t: TaskData, run: int, catalog: Catalog): TaskData {
    match Choose(t.spec, Cands(t), catalog)
    case Nothing => t.Ends(run).(status := Failed)
    case Chosen(_, RequiresApproval) => t.Ends(run).To(WaitingApproval)
    case Chosen(_, DryRunOnly) => t.Ends(run).(status := Completed)
    case Chosen(action, _) =>
      if MayBecome(t.status, Executing) then t.(status := Executing, runs := t.runs[run := Executes(action)])
      else t.Ends(run)
  }

  function AfterExecute(t: TaskData, run: int): TaskData
    requires run in t.runs && t.runs[run].Executes?
  {
    t.(executed := t.executed + [t.runs[run].action], runs := t.runs[run := Records(t.runs[run].action)])
  }

  function AfterRecord(t: TaskData, run: int, success: bool): TaskData {
    if MayBecome(t.status, Evaluating) then t.Ends(run).(status := if success then Completed else Failed)
    else t.Ends(run)
  }

  function Next(t: TaskData, step: Step, catalog: Catalog): TaskData
    requires Enabled(t, step)
  {
    match step
    case Validate => t.To(Validated)
    case Route => t.To(if t.spec.requiresApproval then WaitingApproval else Ready)
    case Approve => if t.status == WaitingApproval then t.To(Ready) else t
    case Reject => if t.status == WaitingApproval then t.To(Failed) else t
    case DryRunCall => t
    case Admit(run) => AfterAdmit(t, run)
    case Decide(run) => AfterDecide(t, run, catalog)
    case Execute(run) => AfterExecute(t, run)
    case Record(run, success) => AfterRecord(t, run, success)
    case Crash(run) => t.Ends(run)
  }

  ghost predicate Runs(s: TaskData, steps: seq<Step>, catalog: Catalog, t: TaskData)
    decreases |steps|
  {
    if steps == [] then s == t
    else Enabled(s, steps[0]) && Runs(Next(s, steps[0], catalog), steps[1..], catalog, t)
  }

  function Fresh(spec: TaskSpec): TaskData {
    TaskData(spec, Created, map[], [])
  }

  /** The phase of a call fits the task's status, and what it executes was allowed. */
  predicate PhaseFits(t: TaskData, phase: Phase, catalog: Catalog) {
    match phase
    case Choosing => t.status == Deciding && t.executed == []
    case Executes(action) => t.status == Executing && t.executed == [] && Harmless(t.spec, action, catalog)
    case Records(action) => t.status == Executing && t.executed == [action]
  }

  ghost predicate Orderly(t: TaskData, catalog: Catalog) {
    && (forall i, j :: i in t.runs && j in t.runs ==> i == j)
    && (forall i :: i in t.runs ==> PhaseFits(t, t.runs[i], catalog))
    && |t.executed| <= 1
    && (t.executed != [] ==> t.status in {Executing, Completed, Failed} && Harmless(t.spec, t.executed[0], catalog))
    && ((t.runs != map[] || t.status in {Deciding, Executing, Completed}) ==> Cands(t) != [])
    && (t.status == Failed ==> t.runs == map[])
    && (t.status == Completed ==> t.runs == map[])
    && t.status !in {Running, Evaluating, Cancelled}
  }

  lemma OnlyRunEnds(t: TaskData, run: int)
    requires run in t.runs && forall i, j :: i in t.runs && j in t.runs ==> i == j
    ensures t.Ends(run).runs == map[]
  {
    assert forall i :: i in t.runs ==> i == run;
  }

  /** What the decision lets go without a dry run is harmless. */
  lemma ChoiceIsHarmless(spec: TaskSpec, catalog: Catalog)
    ensures var choice := Choose(spec, Candidates(spec.allowed, spec.blocked), catalog);
      choice.Chosen? && choice.decision !in {RequiresApproval, DryRunOnly} ==> Harmless(spec, choice.action, catalog)
  {
    var candidates := Candidates(spec.allowed, spec.blocked);
    ChooseTakesFirst(spec, candidates, catalog);
    match Choose(spec, candidates, catalog) {
      case Chosen(action, decision) =>
        var k: nat :| ChosenAt(spec, candidates, catalog, k, decision) && candidates[k] == action;
        AllowedExactlyIfHarmless(spec, action, catalog);
      case _ =>
    }
  }

  /** A call that ends while deciding leaves the task deciding, completed or failed. */
  lemma EndedIsOrderly(t: TaskData, run: int, catalog: Catalog, s: TaskStatus)
    requires Orderly(t, catalog) && run in t.runs && t.runs[run].Choosing? && s in {Deciding, Completed, Failed}
    ensures Orderly(t.Ends(run).(status := s), catalog)
  {
    OnlyRunEnds(t, run);
  }

  lemma StartedIsOrderly(t: TaskData, run: int, catalog: Catalog, action: string)
    requires Orderly(t, catalog) && run in t.runs && t.runs[run].Choosing? && Harmless(t.spec, action, catalog)
    ensures Orderly(t.(status := Executing, runs := t.runs[run := Executes(action)]), catalog)
  {
  }

  lemma DecideKeepsOrderly(t: TaskData, run: int, catalog: Catalog)
    requires Orderly(t, catalog) && run in t.runs && t.runs[run].Choosing?
    ensures Orderly(AfterDecide(t, run, catalog), catalog)
  {
    ChoiceIsHarmless(t.spec, catalog);
    match Choose(t.spec, Cands(t), catalog) {
      case Nothing => EndedIsOrderly(t, run, catalog, Failed);
      case Chosen(_, RequiresApproval) => EndedIsOrderly(t, run, catalog, Deciding);
      case Chosen(_, DryRunOnly) => EndedIsOrderly(t, run, catalog, Completed);
      case Chosen(action, _) => StartedIsOrderly(t, run, catalog, action);
    }
  }

  lemma RunEndsOrderly(t: TaskData, step: Step, catalog: Catalog)
    requires Enabled(t, step) && Orderly(t, catalog) && (step.Record? || step.Crash?)
    ensures Orderly(Next(t, step, catalog), catalog)
  {
    OnlyRunEnds(t, step.run);
  }

  lemma ExecuteKeepsOrderly(t: TaskData, run: int, catalog: Catalog)
    requires Enabled(t, Execute(run)) && Orderly(t, catalog)
    ensures Orderly(AfterExecute(t, run), catalog)
  {
    OnlyRunEnds(t, run);
  }

  lemma CallKeepsOrderly(t: TaskData, step: Step, catalog: Catalog)
    requires Enabled(t, step) && Orderly(t, catalog)
    requires step in {Validate, Route, Approve, Reject, DryRunCall}
    ensures Orderly(Next(t, step, catalog), catalog)
  {
    assert Next(t, step, catalog).runs == t.runs && Next(t, step, catalog).executed == t.executed;
  }

  lemma StepKeepsOrderly(t: TaskData, step: Step, catalog: Catalog)
    requires Enabled(t, step) && Orderly(t, catalog)
    ensures Orderly(Next(t, step, catalog), catalog)
  {
    match step {
      case Decide(run) => DecideKeepsOrderly(t, run, catalog);
      case Record(run, success) => RunEndsOrderly(t, step, catalog);
      case Crash(run) => RunEndsOrderly(t, step, catalog);
      case Execute(run) => ExecuteKeepsOrderly(t, run, catalog);
      case Admit(run) =>
      case _ => CallKeepsOrderly(t, step, catalog);
    }
  }

  lemma {:induction false} RunsKeepOrderly(s: TaskData, steps: seq<Step>, catalog: Catalog, t: TaskData)
    requires Runs(s, steps, catalog, t) && Orderly(s, catalog)
    ensures Orderly(t, catalog)
    decreases |steps|
  {
    if steps != [] {
      StepKeepsOrderly(s, steps[0], catalog);
      RunsKeepOrderly(Next(s, steps[0], catalog), steps[1..], catalog, t);
    }
  }

  /** Over every interleaving a task executes at most one action, and a harmless one. */
  lemma AtMostOneHarmlessExecution(spec: TaskSpec, steps: seq<Step>, catalog: Catalog, t: TaskData)
    requires Runs(Fresh(spec), steps, catalog, t)
    ensures |t.executed| <= 1 && forall a :: a in t.executed ==> Harmless(t.spec, a, catalog)
  {
    RunsKeepOrderly(Fresh(spec), steps, catalog, t);
  }

  predicate IsFinal(s: TaskStatus) {
    s == Completed || s == Failed
  }

  /** A completed or failed task is never changed again, although two writes skip the table. */
  lemma {:induction false} FinalIsNeverLeft(s: TaskData, steps: seq<Step>, catalog: Catalog, t: TaskData)
    requires Runs(s, steps, catalog, t) && Orderly(s, catalog) && IsFinal(s.status)
    ensures t.status == s.status && t.executed == s.executed
    decreases |steps|
  {
    if steps != [] {
      StepKeepsOrderly(s, steps[0], catalog);
      FinalIsNeverLeft(Next(s, steps[0], catalog), steps[1..], catalog, t);
    }
  }

  lemma ChoiceGoesExactly(spec: TaskSpec, catalog: Catalog)
    ensures var choice := Choose(spec, Candidates(spec.allowed, spec.blocked), catalog);
      (choice.Chosen? && choice.decision == Allow)
      <==> exists a :: a in Candidates(spec.allowed, spec.blocked) && Harmless(spec, a, catalog)
  {
    var candidates := Candidates(spec.allowed, spec.blocked);
    ChooseTakesFirst(spec, candidates, catalog);
    if a :| a in candidates && Harmless(spec, a, catalog) {
      var i: nat :| i < |candidates| && candidates[i] == a;
      AllowedExactlyIfHarmless(spec, a, catalog);
      assert Goes(CheckAction(spec, candidates[i], catalog));
      assert forall b :: CheckAction(spec, b, catalog) != DryRunOnly;
    }
    ChoiceIsHarmless(spec, catalog);
    match Choose(spec, candidates, catalog) {
      case Chosen(action, decision) =>
        var k: nat :| ChosenAt(spec, candidates, catalog, k, decision) && candidates[k] == action;
        assert action in candidates;
      case _ =>
    }
  }

  predicate IsExecuting(t: TaskData, run: int) {
    run in t.runs && t.runs[run].Executes?
  }

  lemma DecideGoesExactly(t: TaskData, run: int, catalog: Catalog)
    requires t.status == Deciding && run in t.runs && t.runs[run] == Choosing
    ensures IsExecuting(AfterDecide(t, run, catalog), run)
       <==> exists a :: a in Cands(t) && Harmless(t.spec, a, catalog)
  {
    ChoiceGoesExactly(t.spec, catalog);
    DecisionIsNeverDeny(t.spec, Cands(t), catalog);
  }

  /** A ready task that is taken up goes on to execute, exactly if one of its candidates is harmless. */
  lemma ReadyTaskExecutesExactly(t: TaskData, run: int, catalog: Catalog)
    requires t.status == Ready && t.runs == map[]
    ensures var admitted := Next(t, Admit(run), catalog);
      (Enabled(admitted, Decide(run)) && IsExecuting(Next(admitted, Decide(run), catalog), run))
      <==> exists a :: a in Cands(t) && Harmless(t.spec, a, catalog)
  {
    if Cands(t) != [] {
      DecideGoesExactly(Next(t, Admit(run), catalog), run, catalog);
    }
  }

  lemma {:induction false} DecisionIsNeverDeny(spec: TaskSpec, candidates: seq<string>, catalog: Catalog)
    ensures Choose(spec, candidates, catalog).Chosen? ==> Choose(spec, candidates, catalog).decision != Deny
  {
    if candidates != [] {
      DecisionIsNeverDeny(spec, candidates[1..], catalog);
    }
  }

  /** Deciding with no call in progress: nothing moves such a task any more. */
  ghost predicate Stuck(t: TaskData) {
    t.status == Deciding && t.runs == map[] && Cands(t) != []
  }

  /** Where no candidate may go and some candidate needs an approval, the service asks for it. */
  lemma ChoiceAsksExactly(spec: TaskSpec, candidates: seq<string>, catalog: Catalog)
    ensures var choice := Choose(spec, candidates, catalog);
      choice.Chosen? && choice.decision == RequiresApproval
      <==> Nowhere(spec, candidates, catalog, Goes) && !Nowhere(spec, candidates, catalog, NeedsApproval)
  {
    ChooseTakesFirst(spec, candidates, catalog);
    DecisionIsNeverDeny(spec, candidates, catalog);
    match Choose(spec, candidates, catalog) {
      case Chosen(action, decision) =>
        var k: nat :| ChosenAt(spec, candidates, catalog, k, decision) && candidates[k] == action;
        assert Goes(decision) ==> Goes(CheckAction(spec, candidates[k], catalog));
        assert !Goes(decision) ==> NeedsApproval(CheckAction(spec, candidates[k], catalog));
      case _ =>
    }
  }

  /** A decision gets the task stuck exactly if no candidate may go and some candidate needs an approval: the table
      refuses to wait for the approval from deciding, and the call ends. */
  lemma ApprovalAtRunGetsStuck(t: TaskData, run: int, catalog: Catalog)
    requires Orderly(t, catalog) && run in t.runs && t.runs[run].Choosing?
    ensures Stuck(Next(t, Decide(run), catalog))
       <==> Nowhere(t.spec, Cands(t), catalog, Goes) && !Nowhere(t.spec, Cands(t), catalog, NeedsApproval)
  {
    ChoiceAsksExactly(t.spec, Cands(t), catalog);
    DecisionIsNeverDeny(t.spec, Cands(t), catalog);
    OnlyRunEnds(t, run);
  }

  /** Nothing in the action's definition denies it for the task. */
  predicate Eligible(spec: TaskSpec, id: string, catalog: Catalog) {
    id in catalog && catalog[id].active && spec.target in catalog[id].allowedTargets && catalog[id].risk != Forbidden
  }

  /** For a task that requires approval, that is so exactly if it is no dry run and some candidate is eligible. */
  lemma ApprovalRequiredExactly(spec: TaskSpec, catalog: Catalog)
    requires spec.requiresApproval
    ensures var candidates := Candidates(spec.allowed, spec.blocked);
      Nowhere(spec, candidates, catalog, Goes) && !Nowhere(spec, candidates, catalog, NeedsApproval)
      <==> spec.mode != DryRun && exists a :: a in candidates && Eligible(spec, a, catalog)
  {
    var candidates := Candidates(spec.allowed, spec.blocked);
    forall i | 0 <= i < |candidates|
      ensures CheckAction(spec, candidates[i], catalog)
           == if !Eligible(spec, candidates[i], catalog) then Deny
              else if spec.mode == DryRun then DryRunOnly else RequiresApproval
    {
      assert candidates[i] in candidates;
    }
    if a :| a in candidates && Eligible(spec, a, catalog) {
      var i :| 0 <= i < |candidates| && candidates[i] == a;
      assert Goes(CheckAction(spec, candidates[i], catalog))
        || NeedsApproval(CheckAction(spec, candidates[i], catalog));
    }
  }

  function ApprovedSteps(run: int): seq<Step> {
    [Validate, Route, Approve, Admit(run), Decide(run)]
  }

  /** A task that requires approval, has candidates, is approved and then run: it gets stuck exactly if it is no dry run
      and some candidate is eligible. Then not even its approval helps it. */
  lemma ApprovedTaskGetsStuckExactly(spec: TaskSpec, run: int, catalog: Catalog) returns (t: TaskData)
    requires spec.requiresApproval && Candidates(spec.allowed, spec.blocked) != []
    ensures Runs(Fresh(spec), ApprovedSteps(run), catalog, t)
    ensures Stuck(t) <==>
      spec.mode != DryRun && exists a :: a in Candidates(spec.allowed, spec.blocked) && Eligible(spec, a, catalog)
  {
    var ready := Fresh(spec).(status := Ready);
    var admitted := ready.(status := Deciding, runs := map[run := Choosing]);
    t := Next(admitted, Decide(run), catalog);
    assert Next(ready, Admit(run), catalog) == admitted;
    OneStepRuns(admitted, Decide(run), catalog, t);
    StepOn(ready, Admit(run), [Decide(run)], catalog, t);
    var waiting := Fresh(spec).(status := WaitingApproval);
    StepOn(waiting, Approve, [Admit(run), Decide(run)], catalog, t);
    StepOn(Fresh(spec).(status := Validated), Route, [Approve, Admit(run), Decide(run)], catalog, t);
    StepOn(Fresh(spec), Validate, [Route, Approve, Admit(run), Decide(run)], catalog, t);
    assert [Validate] + [Route, Approve, Admit(run), Decide(run)] == ApprovedSteps(run);
    ApprovalAtRunGetsStuck(admitted, run, catalog);
    ApprovalRequiredExactly(spec, catalog);
  }

  lemma OneStepRuns(s: TaskData, step: Step, catalog: Catalog, t: TaskData)
    requires Enabled(s, step) && Next(s, step, catalog) == t
    ensures Runs(s, [step], catalog, t)
  {
    assert [step][1..] == [];
  }

  lemma StepOn(s: TaskData, step: Step, rest: seq<Step>, catalog: Catalog, t: TaskData)
    requires Enabled(s, step) && Runs(Next(s, step, catalog), rest, catalog, t)
    ensures Runs(s, [step] + rest, catalog, t)
  {
    assert ([step] + rest)[0] == step && ([step] + rest)[1..] == rest;
  }

  /** For example a task with one harmless action that only the task itself wants approved. */
  lemma ApprovedTaskGetsStuck(target: string, action: string, run: int)
    returns (spec: TaskSpec, catalog: Catalog, t: TaskData)
    ensures spec == TaskSpec(target, [action], [], true, Readonly)
    ensures catalog == map[action := ActionDefinition(true, NoRisk, false, false, [target])]
    ensures Runs(Fresh(spec), ApprovedSteps(run), catalog, t) && Stuck(t)
  {
    spec := TaskSpec(target, [action], [], true, Readonly);
    catalog := map[action := ActionDefinition(true, NoRisk, false, false, [target])];
    assert action in Candidates(spec.allowed, spec.blocked) && Eligible(spec, action, catalog);
    t := ApprovedTaskGetsStuckExactly(spec, run, catalog);
  }

  lemma {:induction false} StuckForever(s: TaskData, steps: seq<Step>, catalog: Catalog, t: TaskData)
    requires Runs(s, steps, catalog, t) && Stuck(s)
    ensures t == s
    decreases |steps|
  {
    if steps != [] {
      StuckForever(Next(s, steps[0], catalog), steps[1..], catalog, t);
    }
  }

  /** A task whose specification requires approval never executes anything, even after it was approved. */
  lemma ApprovedTasksNeverExecute(spec: TaskSpec, steps: seq<Step>, catalog: Catalog, t: TaskData)
    requires Runs(Fresh(spec), steps, catalog, t) && spec.requiresApproval
    ensures t.executed == []
  {
    RunsKeepOrderly(Fresh(spec), steps, catalog, t);
    SpecStays(Fresh(spec), steps, catalog, t);
  }

  lemma {:induction false} SpecStays(s: TaskData, steps: seq<Step>, catalog: Catalog, t: TaskData)
    requires Runs(s, steps, catalog, t)
    ensures t.spec == s.spec
    decreases |steps|
  {
    if steps != [] {
      SpecStays(Next(s, steps[0], catalog), steps[1..], catalog, t);
    }
  }

  class TaskRunner {
    const spec: TaskSpec
    const catalog: Catalog
    var status: TaskStatus
    var runs: map<int, Phase>
    var executed: seq<string>

    ghost function Model(): TaskData
      reads this
    {
      TaskData(spec, status, runs, executed)
    }

    constructor (spec: TaskSpec, catalog: Catalog)
      ensures Model() == Fresh(spec) && this.catalog == catalog
    {
      this.spec, this.catalog := spec, catalog;
      status, runs, executed := Created, map[], [];
    }

    method TransitionTask(to: TaskStatus) returns (ok: bool)
      modifies this`status
      ensures ok == MayBecome(old(status), to) && Model() == old(Model()).To(to)
    {
      ok := MayBecome(status, to);
      if ok {
        status := to;
      }
    }

    method CreateTask()
      requires status == Created
      modifies this`status
      ensures Model() == Next(Next(old(Model()), Validate, catalog), Route, catalog)
    {
      var ok := TransitionTask(Validated);
      ok := TransitionTask(if spec.requiresApproval then WaitingApproval else Ready);
    }

    method ApproveTask()
      modifies this`status
      ensures Model() == Next(old(Model()), Approve, catalog)
    {
      if status == WaitingApproval {
        var ok := TransitionTask(Ready);
      }
    }

    method RejectTask()
      modifies this`status
      ensures Model() == Next(old(Model()), Reject, catalog)
    {
      if status == WaitingApproval {
        var ok := TransitionTask(Failed);
      }
    }

    /** The first part of run: up to deciding. */
    method AdmitRun(run: int)
      requires run !in runs
      modifies this
      ensures Model() == Next(old(Model()), Admit(run), catalog)
    {
      var candidates := Candidates(spec.allowed, spec.blocked);
      if candidates == [] {
        status := Failed;
        return;
      }
      if status !in {Ready, Validated} {
        return;
      }
      var ok := TransitionTask(Running);
      if !ok {
        return;
      }
      ok := TransitionTask(Deciding);
      runs := runs[run := Choosing];
    }

    /** The second part of run: the decision. */
    method DecideRun(run: int)
      requires run in runs && runs[run].Choosing?
      modifies this
      ensures Model() == Next(old(Model()), Decide(run), catalog)
    {
      var candidates := Candidates(spec.allowed, spec.blocked);
      var choice := ChooseFirstAllowed(spec, candidates, catalog);
      var ok := false;
      match choice {
        case Nothing =>
          status := Failed;
        case Chosen(_, RequiresApproval) =>
          var waits := TransitionTask(WaitingApproval);
        case Chosen(_, DryRunOnly) =>
          status := Completed;
        case Chosen(action, _) =>
          ok := TransitionTask(Executing);
          if ok {
            runs := runs[run := Executes(action)];
          }
      }
      if !ok {
        runs := runs - {run};
      }
    }

    method ExecuteRun(run: int)
      requires run in runs && runs[run].Executes?
      modifies this
      ensures Model() == Next(old(Model()), Execute(run), catalog)
    {
      executed := executed + [runs[run].action];
      runs := runs[run := Records(runs[run].action)];
    }

    method RecordExecution(run: int, success: bool)
      requires run in runs && runs[run].Records?
      modifies this
      ensures Model() == Next(old(Model()), Record(run, success), catalog)
    {
      var ok := TransitionTask(Evaluating);
      if ok {
        status := if success then Completed else Failed;
      }
      runs := runs - {run};
    }
  }
}
