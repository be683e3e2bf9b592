/** A maze with one right door: inspect shows its colour, move opens a door. */
module MemoryMazes {
  import opened Wrappers
  import opened Schema

  datatype MazeData = MazeData(
    targetColor: string,
    doors: seq<string>,
    maxSteps: int,
    visibility: Visibility,
    sawHint: bool,
    escaped: bool,
    steps: int,
    terminal: bool)
  {
    ghost predicate Valid() {
      0 < |doors| && 0 < maxSteps && 0 <= steps
    }
  }

  type Maze = w: MazeData | w.Valid() witness
    MazeData("red", ["red"], 1, Visible, true, false, 0, false)

  function SpecsFor(doors: seq<string>): Specs {
    map[
      InspectName := ActionSpec(revealsInformation := true),
      MoveName := ActionSpec(requiresKnownSlot := true, terminalOnly := true, allowedDoors := Some(doors))]
  }

  /** The state after a reset; the constructor alone starts without the hint in every mode. */
  function Start(targetColor: string, doors: seq<string>, maxSteps: int, visibility: Visibility): Maze
    requires 0 < |doors| && 0 < maxSteps
  {
    MazeData(targetColor, doors, maxSteps, visibility, visibility.Visible?, false, 0, false)
  }

  function View(w: Maze): WorldState
  {
    WorldState(
      [Flag(w.sawHint), Flag(w.escaped), Ratio(w.steps, w.maxSteps), Flag(w.terminal)],
      Facts(
        currentIndex := 0,
        currentSlotKnown := w.sawHint,
        progressFraction := if w.escaped then 1.0 else if w.sawHint then 0.3 else 0.0,
        isLastStepIndex := w.sawHint,
        canFinish := w.sawHint,
        fullyVisible := w.sawHint || w.visibility.Visible?,
        steps := w.steps,
        maxSteps := w.maxSteps,
        family := MazeFacts(w.targetColor, if w.sawHint then w.targetColor else "", w.sawHint, w.escaped, None),
        setup := None),
      w.terminal)
  }

  /** A step counts itself, keeps the configuration, reports success, and ends the
      episode on success or when the steps run out. */
  ghost predicate Settled(w: Maze, t: Transition<Maze>) {
    && t.next.targetColor == w.targetColor
    && t.next.doors == w.doors
    && t.next.maxSteps == w.maxSteps
    && t.next.visibility == w.visibility
    && t.next.steps == w.steps + 1
    && (t.success <==> t.next.escaped)
    && (t.next.terminal <==> t.success || t.next.steps >= w.maxSteps)
  }

  function Step(w: Maze, a: Action): (r: Result<Transition<Maze>, StepError>)
    ensures r.Ok? ==> Settled(w, r.value)
  {
    if !ValidAction(a, SpecsFor(w.doors)) then Err(ContractError)
    else if a.Inspect? then Ok(Finish(w, true, w.escaped, 0.1, if w.sawHint then 0.0 else 1.0))
    else if w.sawHint && a.door == w.targetColor then Ok(Finish(w, w.sawHint, true, 1.0, 0.0))
    else Ok(Finish(w, w.sawHint, w.escaped, -0.25, 0.0))
  }

  function Finish(w: Maze, sawHint: bool, escaped: bool, reward: real, informationGain: real): (t: Transition<Maze>)
    ensures Settled(w, t)
  {
    var done := escaped || w.steps + 1 >= w.maxSteps;
    Transition(w.(sawHint := sawHint, escaped := escaped, steps := w.steps + 1, terminal := done),
               reward, escaped, informationGain)
  }

  function MoveEach(doors: seq<string>): (actions: seq<Action>)
    ensures |actions| == |doors| && forall i :: 0 <= i < |doors| ==> actions[i] == Move(doors[i])
  {
    seq(|doors|, i requires 0 <= i < |doors| => Move(doors[i]))
  }

  function Candidates(w: Maze): seq<Action> {
    [Inspect] + MoveEach(w.doors)
  }

  function Expert(w: Maze): Action {
    if !w.sawHint then Inspect else Move(w.targetColor)
  }

  class MemoryMaze {
    var targetColor: string
    var doors: seq<string>
    var maxSteps: int
    var visibility: Visibility
    var specs: Specs
    var state: WorldState

    ghost predicate Valid()
      reads this
    {
      && state.facts.family.MazeFacts?
      && Model().Valid() && specs == SpecsFor(doors) && state == View(Model())
    }

    ghost function Model(): MazeData
      requires state.facts.family.MazeFacts?
      reads this
    {
      MazeData(targetColor, doors, maxSteps, visibility, state.facts.family.sawHint, state.facts.family.escaped,
           state.facts.steps, state.terminal)
    }

    constructor (targetColor: string, doors: seq<string>, maxSteps: int, visibility: Visibility)
      requires 0 < |doors| && 0 < maxSteps
      ensures Valid() && Model() == Start(targetColor, doors, maxSteps, visibility).(sawHint := false)
    {
      this.targetColor, this.doors, this.maxSteps, this.visibility := targetColor, doors, maxSteps, visibility;
      specs := SpecsFor(doors);
      state := View(MazeData(targetColor, doors, maxSteps, visibility, false, false, 0, false));
    }

    method ResetWorld()
      requires Valid()
      modifies this
      ensures Valid() && Model() == Start(old(targetColor), old(doors), old(maxSteps), old(visibility))
    {
      state := MakeState(visibility.Visible?, false, 0, false);
    }

    function MakeState(sawHint: bool, escaped: bool, steps: int, terminal: bool): WorldState
      requires 0 < |doors| && 0 < maxSteps && 0 <= steps
      reads this
    {
      View(MazeData(targetColor, doors, maxSteps, visibility, sawHint, escaped, steps, terminal))
    }

    method StepWorld(a: Action) returns (r: Result<Transition<WorldState>, StepError>)
      requires Valid()
      modifies this
      ensures Valid()
      ensures match Step(old(Model()), a)
        case Err(e) => r == Err(e) && unchanged(this)
        case Ok(t) => Model() == t.next && r == Ok(Transition(state, t.reward, t.success, t.informationGain))
    {
      if !ValidAction(a, specs) {
        return Err(ContractError);
      }
      var sawHint, escaped, steps := state.facts.family.sawHint, state.facts.family.escaped, state.facts.steps + 1;
      var reward, informationGain := -0.02, 0.0;
      match a {
        case Inspect =>
          informationGain := if sawHint then 0.0 else 1.0;
          sawHint, reward := true, 0.1;
        case Move(door) =>
          if sawHint && door == targetColor {
            escaped, reward := true, 1.0;
          } else {
            reward := -0.25;
          }
        case _ =>
      }
      state := MakeState(sawHint, escaped, steps, escaped || steps >= maxSteps);
      r := Ok(Transition(state, reward, escaped, informationGain));
    }

    method Snapshot() returns (snapshot: Maze)
      requires Valid()
      ensures snapshot == Model()
    {
      snapshot := MazeData(targetColor, doors, maxSteps, visibility,
                           state.facts.family.sawHint, state.facts.family.escaped, state.facts.steps, state.terminal);
    }

    method Restore(snapshot: Maze)
      modifies this
      ensures Valid() && Model() == snapshot
    {
      targetColor, doors := snapshot.targetColor, snapshot.doors;
      maxSteps, visibility := snapshot.maxSteps, snapshot.visibility;
      specs := SpecsFor(doors);
      state := MakeState(snapshot.sawHint, snapshot.escaped, snapshot.steps, snapshot.terminal);
    }
  }
}
