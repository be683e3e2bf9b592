/** A tool chain that only advances after a search has made its precondition ready. */
module ToolPreconditionWorlds {
  import opened Wrappers
  import opened Schema

  datatype GuardedChainData = GuardedChainData(
    sequence: seq<Tool>,
    maxSteps: int,
    preconditionReady: bool,
    stage: int,
    steps: int,
    terminal: bool)
  {
    ghost predicate Valid() {
      0 < |sequence| && 0 < maxSteps && ExecutionSequence(sequence) && 0 <= stage && 0 <= steps
    }
  }

  type GuardedChain = w: GuardedChainData | w.Valid() witness
    GuardedChainData([Read], 1, false, 0, 0, false)

  /** The constructor's contract: no setup action, and summarize only in the final slot. */
  predicate ExecutionSequence(sequence: seq<Tool>) {
    && (forall i :: 0 <= i < |sequence| ==> sequence[i] != Search)
    && (forall i :: 0 <= i < |sequence| - 1 ==> sequence[i] != Summarize)
  }

  const SPECS: Specs := map[
    ToolName(Search) := ActionSpec(revealsInformation := true),
    ToolName(Read) := ActionSpec(revealsInformation := true, requiresKnownSlot := true),
    ToolName(Summarize) := ActionSpec(requiresKnownSlot := true, terminalOnly := true)]

  function Start(sequence: seq<Tool>, maxSteps: int): GuardedChain
    requires 0 < |sequence| && 0 < maxSteps && ExecutionSequence(sequence)
  {
    GuardedChainData(sequence, maxSteps, false, 0, 0, false)
  }

  function Expected(w: GuardedChain): Tool
  {
    w.sequence[Min(w.stage, |w.sequence| - 1)]
  }

  function View(w: GuardedChain): WorldState
  {
    WorldState(
      [Ratio(w.stage, |w.sequence|), Ratio(w.steps, w.maxSteps), Flag(w.terminal), Flag(w.preconditionReady)],
      Facts(
        currentIndex := w.stage,
        currentSlotKnown := true,
        progressFraction := Ratio(w.stage, |w.sequence|),
        isLastStepIndex := w.stage == |w.sequence| - 1,
        canFinish := w.preconditionReady && w.stage == |w.sequence| - 1,
        fullyVisible := true,
        steps := w.steps,
        maxSteps := w.maxSteps,
        family := ToolFacts(
          w.sequence,
          seq(|w.sequence|, i requires 0 <= i < |w.sequence| => Some(w.sequence[i])),
          Some(if w.stage < |w.sequence| then Expected(w) else Summarize),
          Some(w.preconditionReady)),
        setup := Some(SetupFacts(if w.preconditionReady then PostSetupDone else PreSetup,
                                 w.preconditionReady, !w.preconditionReady))),
      w.terminal)
  }

  /** A step counts itself, keeps the configuration, reports success, and ends the
      episode on success or when the steps run out. */
  ghost predicate Settled(w: GuardedChain, t: Transition<GuardedChain>) {
    && t.next.sequence == w.sequence
    && t.next.maxSteps == w.maxSteps
    && t.next.steps == w.steps + 1
    && (t.success <==> t.next.stage >= |w.sequence|)
    && (t.next.terminal <==> t.success || t.next.steps >= w.maxSteps)
  }

  function Step(w: GuardedChain, a: Action): (r: Result<Transition<GuardedChain>, StepError>)
    ensures r.Ok? ==> Settled(w, r.value)
  {
    if !ValidAction(a, SPECS) then Err(ContractError)
    else if a.tool == Search then
      if w.preconditionReady then Ok(Finish(w, w.stage, true, -0.02, 0.0))
      else Ok(Finish(w, w.stage, true, 0.12, 1.0))
    else if a.tool != Expected(w) then Ok(Finish(w, Max(0, w.stage - 1), w.preconditionReady, -0.1, 0.0))
    else if !w.preconditionReady then Ok(Finish(w, Max(0, w.stage - 1), false, -0.3, 0.0))
    else Ok(Finish(w, w.stage + 1, true, if w.stage + 1 >= |w.sequence| then 1.0 else 0.25, 0.0))
  }

  function Finish(w: GuardedChain, stage: int, ready: bool, reward: real,
      informationGain: real): (t: Transition<GuardedChain>)
    requires 0 <= stage
    ensures Settled(w, t)
  {
    var success := stage >= |w.sequence|;
    var done := success || w.steps + 1 >= w.maxSteps;
    Transition(w.(preconditionReady := ready, stage := stage, steps := w.steps + 1, terminal := done),
               reward, success, informationGain)
  }

  const CANDIDATES: seq<Action> := [Use(Search), Use(Read), Use(Summarize)]

  function Expert(w: GuardedChain): Action
  {
    if !w.preconditionReady then Use(Search) else Use(Expected(w))
  }

  class ToolPreconditionWorld {
    var sequence: seq<Tool>
    var maxSteps: int
    var preconditionReady: bool
    var state: WorldState

    ghost predicate Valid()
      reads this
    {
      Model().Valid() && state == View(Model())
    }

    ghost function Model(): GuardedChainData
      reads this
    {
      GuardedChainData(sequence, maxSteps, preconditionReady, state.facts.currentIndex, state.facts.steps,
        state.terminal)
    }

    constructor (sequence: seq<Tool>, maxSteps: int, preconditionReady: bool)
      requires 0 < |sequence| && 0 < maxSteps && ExecutionSequence(sequence)
      ensures Valid() && Model() == Start(sequence, maxSteps).(preconditionReady := preconditionReady)
    {
      this.sequence, this.maxSteps, this.preconditionReady := sequence, maxSteps, preconditionReady;
      state := View(GuardedChainData(sequence, maxSteps, preconditionReady, 0, 0, false));
    }

    method ResetWorld()
      requires Valid()
      modifies this
      ensures Valid() && Model() == Start(old(sequence), old(maxSteps))
    {
      preconditionReady := false;
      state := MakeState(0, 0, false);
    }

    function MakeState(stage: int, steps: int, terminal: bool): WorldState
      requires 0 < |sequence| && 0 < maxSteps && ExecutionSequence(sequence) && 0 <= stage && 0 <= steps
      reads this
    {
      View(GuardedChainData(sequence, maxSteps, preconditionReady, stage, steps, terminal))
    }

    method StepWorld(a: Action) returns (r: Result<Transition<WorldState>, StepError>)
      requires Valid()
      modifies this
      ensures Valid()
      ensures match Step(old(Model()), a)
        case Err(e) => r == Err(e) && unchanged(this)
        case Ok(t) => Model() == t.next && r == Ok(Transition(state, t.reward, t.success, t.informationGain))
    {
      if !ValidAction(a, SPECS) {
        return Err(ContractError);
      }
      var stage, steps, ready := state.facts.currentIndex, state.facts.steps + 1, preconditionReady;
      var expected := sequence[Min(stage, |sequence| - 1)];
      var reward, informationGain := -0.1, 0.0;
      if a.tool == Search {
        if !ready {
          ready, reward, informationGain := true, 0.12, 1.0;
        } else {
          reward := -0.02;
        }
      } else if a.tool == expected {
        if !ready {
          stage, reward := Max(0, stage - 1), -0.3;
        } else {
          stage := stage + 1;
          reward := if stage >= |sequence| then 1.0 else 0.25;
        }
      } else {
        stage := Max(0, stage - 1);
      }
      assert Step(old(Model()), a) == Ok(Finish(old(Model()), stage, ready, reward, informationGain));
      var success := stage >= |sequence|;
      var done := success || steps >= maxSteps;
      preconditionReady := ready;
      state := MakeState(stage, steps, done);
      r := Ok(Transition(state, reward, success, informationGain));
    }

    method Snapshot() returns (snapshot: GuardedChain)
      requires Valid()
      ensures snapshot == Model()
    {
      snapshot := GuardedChainData(sequence, maxSteps, preconditionReady, state.facts.currentIndex, state.facts.steps,
                               state.terminal);
    }

    method Restore(snapshot: GuardedChain)
      modifies this
      ensures Valid() && Model() == snapshot
    {
      sequence, maxSteps, preconditionReady := snapshot.sequence, snapshot.maxSteps, snapshot.preconditionReady;
      state := MakeState(snapshot.stage, snapshot.steps, snapshot.terminal);
    }
  }
}
