/** A tool chain: reveal unknown slots with search or read, use the tools in order. */
module ToolWorlds {
  import opened Wrappers
  import opened Schema

  datatype ToolObservation = NoObservation | Observed(tool: Tool, slot: int, value: Tool)

  datatype ToolChainData = ToolChainData(
    sequence: seq<Tool>,
    maxSteps: int,
    visibility: Visibility,
    known: seq<bool>,
    lastObservation: ToolObservation,
    stage: int,
    steps: int,
    terminal: bool)
  {
    ghost predicate Valid() {
      && 0 < |sequence| && 0 < maxSteps
      && SummarizeLast(sequence)
      && |known| == |sequence|
      && 0 <= stage
      && 0 <= steps
    }
  }

  type ToolChain = w: ToolChainData | w.Valid() witness
    ToolChainData([Read], 1, Visible, [true], NoObservation, 0, 0, false)

  /** The constructor's contract: summarize only in the final slot. */
  predicate SummarizeLast(sequence: seq<Tool>) {
    forall i :: 0 <= i < |sequence| - 1 ==> sequence[i] != Summarize
  }

  predicate Reveals(t: Tool) {
    t != Summarize
  }

  function SpecsFor(sequence: seq<Tool>): Specs {
    map t: Tool | t in sequence ::
      ToolName(t) := ActionSpec(revealsInformation := Reveals(t), requiresKnownSlot := t == Summarize,
                                 terminalOnly := t == Summarize)
  }

  predicate SlotKnown(w: ToolChain) {
    0 <= w.stage < |w.known| ==> w.known[w.stage]
  }

  function Start(sequence: seq<Tool>, maxSteps: int, visibility: Visibility): ToolChain
    requires 0 < |sequence| && 0 < maxSteps && SummarizeLast(sequence)
  {
    ToolChainData(sequence, maxSteps, visibility, InitialMask(visibility, |sequence|), NoObservation, 0, 0, false)
  }

  function View(w: ToolChain): WorldState
  {
    WorldState(
      [Ratio(w.stage, |w.sequence|), Ratio(w.steps, w.maxSteps), Flag(w.terminal)],
      Facts(
        currentIndex := w.stage,
        currentSlotKnown := SlotKnown(w),
        progressFraction := Ratio(w.stage, |w.sequence|),
        isLastStepIndex := w.stage == |w.sequence| - 1,
        canFinish := SlotKnown(w) && w.stage == |w.sequence| - 1,
        fullyVisible := w.visibility.Visible?,
        steps := w.steps,
        maxSteps := w.maxSteps,
        family := ToolFacts(
          w.sequence,
          seq(|w.sequence|, i requires 0 <= i < |w.sequence| => if w.known[i] then Some(w.sequence[i]) else None),
          if SlotKnown(w) && w.stage < |w.sequence| then Some(w.sequence[w.stage]) else None,
          None),
        setup := None),
      w.terminal)
  }

  function Expected(w: ToolChain): Tool
  {
    w.sequence[Min(w.stage, |w.sequence| - 1)]
  }

  /** A step counts itself, keeps the configuration, reports success, and ends the
      episode on success or when the steps run out. */
  ghost predicate Settled(w: ToolChain, t: Transition<ToolChain>) {
    && t.next.sequence == w.sequence
    && t.next.maxSteps == w.maxSteps
    && t.next.visibility == w.visibility
    && t.next.steps == w.steps + 1
    && (t.success <==> t.next.stage >= |w.sequence|)
    && (t.next.terminal <==> t.success || t.next.steps >= w.maxSteps)
  }

  function Step(w: ToolChain, a: Action): (r: Result<Transition<ToolChain>, StepError>)
    ensures r.Ok? ==> Settled(w, r.value)
  {
    if !ValidAction(a, SpecsFor(w.sequence)) then Err(ContractError)
    else if !SlotKnown(w) && Reveals(a.tool) then
      var seen := w.(known := w.known[w.stage := true], lastObservation := Observed(a.tool, w.stage, Expected(w)));
      Ok(Finish(seen, w.stage, 0.05, 1.0))
    else if a.tool == Expected(w) then Ok(Finish(w, w.stage + 1, 0.25, 0.0))
    else Ok(Finish(w, Max(0, w.stage - 1), -0.1, 0.0))
  }

  function Finish(w: ToolChain, stage: int, reward: real, informationGain: real): (t: Transition<ToolChain>)
    requires 0 <= stage
    ensures Settled(w, t)
  {
    var success := stage >= |w.sequence|;
    var done := success || w.steps + 1 >= w.maxSteps;
    Transition(w.(stage := stage, steps := w.steps + 1, terminal := done),
               if success then 1.0 else reward, success, informationGain)
  }

  /** The distinct tools of the sequence, in order of first use. */
  function Distinct(sequence: seq<Tool>): (tools: seq<Tool>)
    ensures forall t :: t in tools <==> t in sequence
  {
    if sequence == [] then [] else
    var last := sequence[|sequence| - 1];
    assert sequence == sequence[..|sequence| - 1] + [last];
    var front := Distinct(sequence[..|sequence| - 1]);
    if last in front then front else front + [last]
  }

  function UseEach(tools: seq<Tool>): (actions: seq<Action>)
    ensures |actions| == |tools| && forall i :: 0 <= i < |tools| ==> actions[i] == Use(tools[i])
  {
    seq(|tools|, i requires 0 <= i < |tools| => Use(tools[i]))
  }

  function Candidates(w: ToolChain): seq<Action> {
    UseEach(Distinct(w.sequence))
  }

  function Expert(w: ToolChain): Action
  {
    if !SlotKnown(w) && !Reveals(Expected(w)) then Use(Search) else Use(Expected(w))
  }

  class ToolWorld {
    var sequence: seq<Tool>
    var maxSteps: int
    var visibility: Visibility
    var knownMask: seq<bool>
    var lastObservation: ToolObservation
    var state: WorldState

    ghost predicate Valid()
      reads this
    {
      Model().Valid() && state == View(Model())
    }

    ghost function Model(): ToolChainData
      reads this
    {
      ToolChainData(sequence, maxSteps, visibility, knownMask, lastObservation,
                state.facts.currentIndex, state.facts.steps, state.terminal)
    }

    constructor (sequence: seq<Tool>, maxSteps: int, visibility: Visibility)
      requires 0 < |sequence| && 0 < maxSteps && SummarizeLast(sequence)
      ensures Valid() && Model() == Start(sequence, maxSteps, visibility)
    {
      this.sequence, this.maxSteps, this.visibility := sequence, maxSteps, visibility;
      knownMask := InitialMask(visibility, |sequence|);
      lastObservation := NoObservation;
      state := View(Start(sequence, maxSteps, visibility));
    }

    method ResetWorld()
      requires Valid()
      modifies this
      ensures Valid() && Model() == Start(old(sequence), old(maxSteps), old(visibility))
    {
      knownMask := InitialMask(visibility, |sequence|);
      lastObservation := NoObservation;
      state := MakeState(0, 0, false);
    }

    function MakeState(stage: int, steps: int, terminal: bool): WorldState
      requires 0 < |sequence| == |knownMask| && 0 < maxSteps && SummarizeLast(sequence) && 0 <= stage && 0 <= steps
      reads this
    {
      View(ToolChainData(sequence, maxSteps, visibility, knownMask, lastObservation, stage, steps, terminal))
    }

    method StepWorld(a: Action) returns (r: Result<Transition<WorldState>, StepError>)
      requires Valid()
      modifies this
      ensures Valid()
      ensures match Step(old(Model()), a)
        case Err(e) => r == Err(e) && unchanged(this)
        case Ok(t) => Model() == t.next && r == Ok(Transition(state, t.reward, t.success, t.informationGain))
    {
      if !ValidAction(a, SpecsFor(sequence)) {
        return Err(ContractError);
      }
      var stage, steps := state.facts.currentIndex, state.facts.steps + 1;
      var expected := sequence[Min(stage, |sequence| - 1)];
      assert expected == Expected(old(Model())) && state.facts.currentSlotKnown == SlotKnown(old(Model()));
      var reward, informationGain := -0.1, 0.0;
      if !state.facts.currentSlotKnown && Reveals(a.tool) {
        if stage < |knownMask| && !knownMask[stage] {
          knownMask := knownMask[stage := true];
          informationGain := 1.0;
          reward := 0.05;
        }
        lastObservation := Observed(a.tool, stage, expected);
      } else if a.tool == expected {
        stage, reward := stage + 1, 0.25;
      } else {
        stage := Max(0, stage - 1);
      }
      var success := stage >= |sequence|;
      var done := success || steps >= maxSteps;
      if success {
        reward := 1.0;
      }
      state := MakeState(stage, steps, done);
      r := Ok(Transition(state, reward, success, informationGain));
    }

    method Snapshot() returns (snapshot: ToolChain)
      requires Valid()
      ensures snapshot == Model()
    {
      snapshot := ToolChainData(sequence, maxSteps, visibility, knownMask, lastObservation,
                            state.facts.currentIndex, state.facts.steps, state.terminal);
    }

    method Restore(snapshot: ToolChain)
      modifies this
      ensures Valid() && Model() == snapshot
    {
      sequence, maxSteps, visibility := snapshot.sequence, snapshot.maxSteps, snapshot.visibility;
      knownMask, lastObservation := snapshot.known, snapshot.lastObservation;
      state := MakeState(snapshot.stage, snapshot.steps, snapshot.terminal);
    }
  }
}
