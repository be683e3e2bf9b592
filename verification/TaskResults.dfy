/** How a task ends, and what it executed. */
module TaskResults {
  import opened Wrappers
  import opened SafetyGates
  import opened TaskRunners

  // ---------- over every run ----------

  predicate IsRecord(step: Step, success: bool) {
    step.Record? && step.success == success
  }

  lemma RecordEnds(t: TaskData, run: int, success: bool, catalog: Catalog)
    requires Orderly(t, catalog) && Enabled(t, Record(run, success))
    ensures Next(t, Record(run, success), catalog).status == if success then Completed else Failed
  {
  }

  /** Once a result is recorded, it decides how the task ends, in every continuation. */
  lemma {:induction false} RecordDecides(s: TaskData, steps: seq<Step>, catalog: Catalog, t: TaskData, i: nat)
    requires Runs(s, steps, catalog, t) && Orderly(s, catalog) && i < |steps| && steps[i].Record?
    ensures t.status == if steps[i].success then Completed else Failed
    decreases |steps|
  {
    var next := Next(s, steps[0], catalog);
    StepKeepsOrderly(s, steps[0], catalog);
    if i == 0 {
      RecordEnds(s, steps[0].run, steps[0].success, catalog);
      FinalIsNeverLeft(next, steps[1..], catalog, t);
    } else {
      RecordDecides(next, steps[1..], catalog, t, i - 1);
    }
  }

  /** Until a result is recorded, a task that executed something is executing. */
  predicate Pending(t: TaskData) {
    t.executed != [] ==> t.status == Executing
  }

  lemma StepKeepsPending(t: TaskData, step: Step, catalog: Catalog)
    requires Enabled(t, step) && Orderly(t, catalog) && Pending(t) && !step.Record?
    ensures Pending(Next(t, step, catalog))
  {
  }

  lemma {:induction false} UnrecordedIsPending(s: TaskData, steps: seq<Step>, catalog: Catalog, t: TaskData)
    requires Runs(s, steps, catalog, t) && Orderly(s, catalog) && Pending(s)
    requires forall i :: 0 <= i < |steps| ==> !steps[i].Record?
    ensures Pending(t)
    decreases |steps|
  {
    if steps != [] {
      assert !steps[0].Record?;
      StepKeepsOrderly(s, steps[0], catalog);
      StepKeepsPending(s, steps[0], catalog);
      UnrecordedIsPending(Next(s, steps[0], catalog), steps[1..], catalog, t);
    }
  }

  /** In every run a task that executed something is completed exactly if a success was recorded, failed exactly if a
      failure was, and otherwise still executing. */
  lemma ExecutedEndsAsRecorded(spec: TaskSpec, steps: seq<Step>, catalog: Catalog, t: TaskData)
    requires Runs(Fresh(spec), steps, catalog, t) && t.executed != []
    ensures t.status == Completed <==> exists i :: 0 <= i < |steps| && IsRecord(steps[i], true)
    ensures t.status == Failed <==> exists i :: 0 <= i < |steps| && IsRecord(steps[i], false)
    ensures t.status in {Completed, Failed, Executing}
  {
    if i: nat :| i < |steps| && steps[i].Record? {
      RecordDecides(Fresh(spec), steps, catalog, t, i);
      assert IsRecord(steps[i], steps[i].success);
      forall k: nat | k < |steps| && steps[k].Record? ensures steps[k].success == steps[i].success {
        RecordDecides(Fresh(spec), steps, catalog, t, k);
      }
    } else {
      UnrecordedIsPending(Fresh(spec), steps, catalog, t);
    }
  }

  /** Without an execution only a dry run is completed. */
  predicate OnlyDry(t: TaskData) {
    t.status == Completed && t.executed == [] ==> t.spec.mode == DryRun
  }

  lemma DryChoice(spec: TaskSpec, candidates: seq<string>, catalog: Catalog)
    ensures var choice := Choose(spec, candidates, catalog);
      choice.Chosen? && choice.decision == DryRunOnly ==> spec.mode == DryRun
  {
    ChooseTakesFirst(spec, candidates, catalog);
  }

  lemma StepKeepsOnlyDry(t: TaskData, step: Step, catalog: Catalog)
    requires Enabled(t, step) && Orderly(t, catalog) && OnlyDry(t)
    ensures OnlyDry(Next(t, step, catalog))
  {
    if step.Decide? {
      DryChoice(t.spec, Cands(t), catalog);
    }
  }

  lemma {:induction false} CompletedUnexecutedIsDry(s: TaskData, steps: seq<Step>, catalog: Catalog, t: TaskData)
    requires Runs(s, steps, catalog, t) && Orderly(s, catalog) && OnlyDry(s)
    ensures OnlyDry(t)
    decreases |steps|
  {
    if steps != [] {
      StepKeepsOrderly(s, steps[0], catalog);
      StepKeepsOnlyDry(s, steps[0], catalog);
      CompletedUnexecutedIsDry(Next(s, steps[0], catalog), steps[1..], catalog, t);
    }
  }

  // ---------- one call of run on a ready task ----------

  /** The first harmless candidate. */
  ghost predicate IsFirstHarmless(t: TaskData, catalog: Catalog, k: nat) {
    && k < |Cands(t)| && Harmless(t.spec, Cands(t)[k], catalog)
    && forall i :: 0 <= i < k ==> !Harmless(t.spec, Cands(t)[i], catalog)
  }

  lemma DecisionFor(spec: TaskSpec, id: string, catalog: Catalog)
    requires id in Candidates(spec.allowed, spec.blocked)
    ensures CheckAction(spec, id, catalog)
         == if !Eligible(spec, id, catalog) then Deny
            else if spec.mode == DryRun then DryRunOnly
            else if Harmless(spec, id, catalog) then Allow else RequiresApproval
  {
  }

  /** Whatever goes without a dry run is the first harmless candidate. */
  lemma HarmlessIsTaken(t: TaskData, catalog: Catalog, k: nat)
    requires IsFirstHarmless(t, catalog, k)
    ensures Choose(t.spec, Cands(t), catalog) == Chosen(Cands(t)[k], Allow)
  {
    ChooseTakesFirst(t.spec, Cands(t), catalog);
    forall i | 0 <= i < |Cands(t)|
      ensures Cands(t)[i] in Cands(t)
      ensures Goes(CheckAction(t.spec, Cands(t)[i], catalog)) <==> Harmless(t.spec, Cands(t)[i], catalog)
    {
      DecisionFor(t.spec, Cands(t)[i], catalog);
    }
    var choice := Choose(t.spec, Cands(t), catalog);
    assert !Nowhere(t.spec, Cands(t), catalog, Goes);
    var j: nat :| ChosenAt(t.spec, Cands(t), catalog, j, choice.decision) && Cands(t)[j] == choice.action;
    assert IsFirst(t.spec, Cands(t), catalog, j, Goes) && j == k;
  }

  predicate IsReady(t: TaskData) {
    t.status == Ready && t.runs == map[] && t.executed == []
  }

  /** A row whose run is about to execute an action does, and ends as that went. */
  lemma ExecutionEnds(decided: TaskData, run: int, action: string, success: bool, catalog: Catalog)
      returns (end: TaskData)
    requires decided.status == Executing && decided.runs == map[run := Executes(action)] && decided.executed == []
    ensures Runs(decided, [Execute(run), Record(run, success)], catalog, end)
    ensures end.executed == [action] && end.runs == map[]
    ensures end.status == Completed <==> success
    ensures end.status == Failed <==> !success
  {
    var executed := Next(decided, Execute(run), catalog);
    end := Next(executed, Record(run, success), catalog);
    OneStepRuns(executed, Record(run, success), catalog, end);
    StepOn(decided, Execute(run), [Record(run, success)], catalog, end);
  }

  /** A ready task with a harmless candidate executes the first of them and ends as that went. */
  lemma HarmlessRunEnds(t: TaskData, run: int, success: bool, catalog: Catalog, k: nat) returns (end: TaskData)
    requires IsReady(t) && IsFirstHarmless(t, catalog, k)
    ensures Runs(t, [Admit(run), Decide(run), Execute(run), Record(run, success)], catalog, end)
    ensures end.executed == [Cands(t)[k]] && end.runs == map[]
    ensures end.status == Completed <==> success
    ensures end.status == Failed <==> !success
  {
    HarmlessIsTaken(t, catalog, k);
    var admitted := Next(t, Admit(run), catalog);
    assert admitted == t.(status := Deciding, runs := map[run := Choosing]);
    var decided := Next(admitted, Decide(run), catalog);
    assert decided == t.(status := Executing, runs := map[run := Executes(Cands(t)[k])]);
    end := ExecutionEnds(decided, run, Cands(t)[k], success, catalog);
    StepOn(admitted, Decide(run), [Execute(run), Record(run, success)], catalog, end);
    StepOn(t, Admit(run), [Decide(run), Execute(run), Record(run, success)], catalog, end);
    assert [Admit(run)] + [Decide(run), Execute(run), Record(run, success)]
        == [Admit(run), Decide(run), Execute(run), Record(run, success)];
  }

  lemma ChoiceWithoutHarmless(t: TaskData, catalog: Catalog)
    requires forall a :: a in Cands(t) ==> !Harmless(t.spec, a, catalog)
    ensures var choice := Choose(t.spec, Cands(t), catalog);
      if forall a :: a in Cands(t) ==> !Eligible(t.spec, a, catalog) then choice == Nothing
      else choice.Chosen? && choice.decision == if t.spec.mode == DryRun then DryRunOnly else RequiresApproval
  {
    ChooseTakesFirst(t.spec, Cands(t), catalog);
    forall i | 0 <= i < |Cands(t)|
      ensures CheckAction(t.spec, Cands(t)[i], catalog)
           == if !Eligible(t.spec, Cands(t)[i], catalog) then Deny
              else if t.spec.mode == DryRun then DryRunOnly else RequiresApproval
    {
      assert Cands(t)[i] in Cands(t);
      DecisionFor(t.spec, Cands(t)[i], catalog);
    }
    match Choose(t.spec, Cands(t), catalog) {
      case Nothing =>
        forall a | a in Cands(t) ensures !Eligible(t.spec, a, catalog) {
          var i :| 0 <= i < |Cands(t)| && Cands(t)[i] == a;
          var decision := CheckAction(t.spec, Cands(t)[i], catalog);
          assert !Goes(decision) && !NeedsApproval(decision);
        }
      case Chosen(action, decision) =>
        var j: nat :| ChosenAt(t.spec, Cands(t), catalog, j, decision) && Cands(t)[j] == action;
        assert Cands(t)[j] in Cands(t);
    }
  }

  /** A ready task without a harmless candidate executes nothing: it fails if no candidate is eligible, is completed if
      it is a dry run, and gets stuck otherwise. */
  lemma OtherRunEnds(t: TaskData, run: int, catalog: Catalog)
    requires IsReady(t) && Cands(t) != [] && forall a :: a in Cands(t) ==> !Harmless(t.spec, a, catalog)
    ensures Enabled(Next(t, Admit(run), catalog), Decide(run))
    ensures var end := Next(Next(t, Admit(run), catalog), Decide(run), catalog);
      && end.executed == [] && end.runs == map[]
      && end.status == if forall a :: a in Cands(t) ==> !Eligible(t.spec, a, catalog) then Failed
                       else if t.spec.mode == DryRun then Completed else Deciding
  {
    ChoiceWithoutHarmless(t, catalog);
    var admitted := Next(t, Admit(run), catalog);
    assert admitted == t.(status := Deciding, runs := map[run := Choosing]);
  }

  lemma SomeMember(candidates: seq<string>)
    ensures candidates == [] || exists a :: a in candidates
  {
    if candidates != [] {
      assert candidates[0] in candidates;
    }
  }

  /** A ready task without any candidate fails at once. */
  lemma EmptyRunFails(t: TaskData, run: int, catalog: Catalog)
    requires IsReady(t) && (forall a :: a in t.spec.allowed ==> a in t.spec.blocked)
    ensures Next(t, Admit(run), catalog) == t.(status := Failed)
  {
    SomeMember(Cands(t));
  }

  // ---------- waiting for an approval ----------

  /** A task has to be validated before it is routed. It is created ready, or waiting if it requires approval; an
      approval makes it ready, a rejection fails it, and neither does anything to any other task. */
  lemma CreationAndAnswer(spec: TaskSpec, catalog: Catalog)
    ensures Next(Fresh(spec), Route, catalog) == Next(Fresh(spec), Approve, catalog) == Fresh(spec)
    ensures var created := Next(Next(Fresh(spec), Validate, catalog), Route, catalog);
      && created == Fresh(spec).(status := if spec.requiresApproval then WaitingApproval else Ready)
      && Next(created, Approve, catalog) == Fresh(spec).(status := Ready)
      && Next(created, Reject, catalog) == Fresh(spec).(status := if spec.requiresApproval then Failed else Ready)
  {
  }

  /** Where a task can come from. */
  function TaskComesFrom(to: TaskStatus): set<TaskStatus> {
    match to
    case Created => {}
    case Validated => {Created}
    case WaitingApproval => {Validated}
    case Ready => {Validated, WaitingApproval}
    case Running => {Ready}
    case Deciding => {Running, Evaluating}
    case Executing => {Running, Deciding}
    case Evaluating => {Executing}
    case Completed => {Evaluating}
    case Failed => {Created, Validated, WaitingApproval, Ready, Running, Deciding, Executing, Evaluating}
    case Cancelled => {Created, Validated, WaitingApproval, Ready, Running, Deciding, Executing, Evaluating}
  }

  lemma TaskTableReadBackwards(s: TaskStatus, to: TaskStatus)
    ensures MayBecome(s, to) <==> s in TaskComesFrom(to)
  {
  }
}
