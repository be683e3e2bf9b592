/** The safety decision about one action of one task. */
module SafetyGates {
  import opened Wrappers

  datatype Risk = NoRisk | Low | Medium | High | Forbidden

  datatype ActionDefinition = ActionDefinition(active: bool, risk: Risk, sideEffect: bool, requiresApproval: bool,
                                               allowedTargets: seq<string>)

  type Catalog = map<string, ActionDefinition>

  datatype TaskMode = DryRun | DryRunOrReadonly | Readonly

  datatype TaskSpec = TaskSpec(target: string, allowed: seq<string>, blocked: seq<string>, requiresApproval: bool,
      mode: TaskMode)

  datatype Decision = Deny | RequiresApproval | DryRunOnly | Allow

  /** Denials come first, then the dry run, then the need for an approval. No approval is ever taken into account. */
  function CheckAction(task: TaskSpec, id: string, catalog: Catalog): Decision {
    if id !in catalog then Deny else
    var action := catalog[id];
    if !action.active then Deny
    else if id in task.blocked then Deny
    else if task.allowed != [] && id !in task.allowed then Deny
    else if task.target !in action.allowedTargets then Deny
    else if action.risk == Forbidden then Deny
    else if task.mode == DryRun then DryRunOnly
    else if action.requiresApproval || action.risk in {Medium, High} || task.requiresApproval then RequiresApproval
    else if action.sideEffect then RequiresApproval
    else Allow
  }

  /** What an action must be before it is executed. */
  predicate Harmless(task: TaskSpec, id: string, catalog: Catalog) {
    && id in catalog && catalog[id].active
    && id in task.allowed && id !in task.blocked
    && task.target in catalog[id].allowedTargets
    && catalog[id].risk in {NoRisk, Low}
    && !catalog[id].sideEffect && !catalog[id].requiresApproval && !task.requiresApproval && task.mode != DryRun
  }

  /** The allowed actions that are not blocked. */
  function Candidates(allowed: seq<string>, blocked: seq<string>): (candidates: seq<string>)
    ensures forall a :: a in candidates <==> a in allowed && a !in blocked
  {
    if allowed == [] then []
    else (if allowed[0] in blocked then [] else [allowed[0]]) + Candidates(allowed[1..], blocked)
  }

  /** For a candidate, allowing it means exactly that it is harmless. */
  lemma AllowedExactlyIfHarmless(task: TaskSpec, id: string, catalog: Catalog)
    requires id in Candidates(task.allowed, task.blocked)
    ensures CheckAction(task, id, catalog) == Allow <==> Harmless(task, id, catalog)
  {
  }

  /** The action must not be used for the task at all. */
  predicate OutOfBounds(task: TaskSpec, id: string, catalog: Catalog) {
    || id !in catalog || id in task.blocked || (task.allowed != [] && id !in task.allowed)
    || !catalog[id].active || task.target !in catalog[id].allowedTargets || catalog[id].risk == Forbidden
  }

  /** Using it is not a matter for anyone's approval. */
  predicate NeedsNoOne(task: TaskSpec, id: string, catalog: Catalog)
    requires id in catalog
  {
    !(task.requiresApproval || catalog[id].requiresApproval || catalog[id].sideEffect || catalog[id].risk == Medium
      || catalog[id].risk == High)
  }

  /** Each decision, for candidates and for all other actions alike. */
  lemma DecisionExactly(task: TaskSpec, id: string, catalog: Catalog)
    ensures CheckAction(task, id, catalog) == Deny <==> OutOfBounds(task, id, catalog)
    ensures CheckAction(task, id, catalog) == DryRunOnly <==> !OutOfBounds(task, id, catalog) && task.mode == DryRun
    ensures CheckAction(task, id, catalog) == Allow
       <==> !OutOfBounds(task, id, catalog) && task.mode != DryRun && NeedsNoOne(task, id, catalog)
  {
  }

  datatype Choice = Nothing | Chosen(action: string, decision: Decision)

  predicate Goes(d: Decision) {
    d == Allow || d == DryRunOnly
  }

  predicate NeedsApproval(d: Decision) {
    d == RequiresApproval
  }

  /** k is the first position whose decision satisfies the wish. */
  ghost predicate IsFirst(task: TaskSpec, candidates: seq<string>, catalog: Catalog, k: nat, wish: Decision -> bool) {
    && k < |candidates| && wish(CheckAction(task, candidates[k], catalog))
    && forall i :: 0 <= i < k ==> !wish(CheckAction(task, candidates[i], catalog))
  }

  ghost predicate Nowhere(task: TaskSpec, candidates: seq<string>, catalog: Catalog, wish: Decision -> bool) {
    forall i :: 0 <= i < |candidates| ==> !wish(CheckAction(task, candidates[i], catalog))
  }

  /** The first candidate that may go, else the first that would need approval, else nothing. */
  function Choose(task: TaskSpec, candidates: seq<string>, catalog: Catalog): Choice
  {
    if candidates == [] then Nothing else
    var decision := CheckAction(task, candidates[0], catalog);
    var rest := Choose(task, candidates[1..], catalog);
    if Goes(decision) then Chosen(candidates[0], decision)
    else if decision == RequiresApproval && !(rest.Chosen? && Goes(rest.decision)) then
      Chosen(candidates[0], RequiresApproval)
    else rest
  }

  /** The choice stands at position k: the first that may go, or where none may, the first that needs approval. */
  ghost predicate ChosenAt(task: TaskSpec, candidates: seq<string>, catalog: Catalog, k: nat, decision: Decision) {
    if Goes(decision) then IsFirst(task, candidates, catalog, k, Goes)
    else Nowhere(task, candidates, catalog, Goes) && IsFirst(task, candidates, catalog, k, NeedsApproval)
  }

  lemma {:induction false} ChooseTakesFirst(task: TaskSpec, candidates: seq<string>, catalog: Catalog)
    ensures match Choose(task, candidates, catalog)
      case Nothing => Nowhere(task, candidates, catalog, Goes) && Nowhere(task, candidates, catalog, NeedsApproval)
      case Chosen(action, decision) =>
        && decision == CheckAction(task, action, catalog)
        && exists k: nat :: ChosenAt(task, candidates, catalog, k, decision) && candidates[k] == action
  {
    if candidates != [] {
      var rest := candidates[1..];
      ChooseTakesFirst(task, rest, catalog);
      var decision := CheckAction(task, candidates[0], catalog);
      if Goes(decision) {
        assert ChosenAt(task, candidates, catalog, 0, decision);
      } else {
        forall i | 0 < i < |candidates| ensures candidates[i] == rest[i - 1] {
        }
        match Choose(task, rest, catalog) {
          case Nothing =>
            assert decision == RequiresApproval ==> ChosenAt(task, candidates, catalog, 0, decision);
          case Chosen(action, chosen) =>
            var k: nat :| ChosenAt(task, rest, catalog, k, chosen) && rest[k] == action;
            if !Goes(chosen) && decision == RequiresApproval {
              assert ChosenAt(task, candidates, catalog, 0, decision);
            } else {
              assert ChosenAt(task, candidates, catalog, k + 1, chosen);
            }
        }
      }
    }
  }

  /** The service's loop: it remembers the first candidate that needs approval and stops at the first that may go. */
  method ChooseFirstAllowed(task: TaskSpec, candidates: seq<string>, catalog: Catalog) returns (choice: Choice)
    ensures choice == Choose(task, candidates, catalog)
  {
    var needsApproval := Nothing;
    for i := 0 to |candidates|
      invariant needsApproval == Nothing || (needsApproval.Chosen? && needsApproval.decision == RequiresApproval)
      invariant Choose(task, candidates, catalog) == Merge(needsApproval, Choose(task, candidates[i..], catalog))
    {
      assert candidates[i..][1..] == candidates[i + 1..];
      var decision := CheckAction(task, candidates[i], catalog);
      if Goes(decision) {
        return Chosen(candidates[i], decision);
      }
      if decision == RequiresApproval && needsApproval == Nothing {
        needsApproval := Chosen(candidates[i], decision);
      }
    }
    choice := needsApproval;
  }

  /** What has been seen, unless a later candidate may go. */
  function Merge(seen: Choice, later: Choice): Choice {
    if later.Chosen? && Goes(later.decision) then later else if seen.Chosen? then seen else later
  }
}
