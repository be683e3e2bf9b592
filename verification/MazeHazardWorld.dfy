/** A maze whose right door is punished while a hazard is active; inspect clears it. */
module MazeHazardWorlds {
  import opened Wrappers
  import opened Schema
  import MemoryMazes

  /** The constructor arguments that a snapshot records and a restore overwrites. */
  datatype HazardConfig = HazardConfig(
    targetColor: string, doors: seq<string>, maxSteps: int, hazardPresent: bool, initialSawHint: bool)

  /** The two things a snapshot omits: the doors the action specs were built with,
      and whether a reset activates the hazard. */
  datatype HazardBuild = HazardBuild(specDoors: seq<string>, initialHazardActive: bool)

  datatype HazardState = HazardState(hazardActive: bool, sawHint: bool, escaped: bool, steps: int, terminal: bool)

  datatype HazardMazeData = HazardMazeData(config: HazardConfig, build: HazardBuild, now: HazardState) {
    ghost predicate Valid() {
      0 < |config.doors| && 0 < config.maxSteps && 0 <= now.steps
    }
  }

  type HazardMaze = w: HazardMazeData | w.Valid() witness
    HazardMazeData(HazardConfig("red", ["red"], 1, false, true), HazardBuild(["red"], false),
      HazardState(false, true, false, 0, false))

  datatype HazardSnapshot = HazardSnapshot(config: HazardConfig, now: HazardState)

  function SpecsFor(doors: seq<string>): Specs {
    MemoryMazes.SpecsFor(doors)
  }

  function Start(config: HazardConfig, hazardActive: bool): HazardMaze
    requires 0 < |config.doors| && 0 < config.maxSteps
  {
    var active := hazardActive && config.hazardPresent;
    HazardMazeData(config, HazardBuild(config.doors, active),
      HazardState(active, config.initialSawHint, false, 0, false))
  }

  function View(w: HazardMaze): WorldState
  {
    StateOf(w.config, w.now)
  }

  function StateOf(c: HazardConfig, now: HazardState): WorldState
    requires 0 < c.maxSteps
  {
    WorldState(
      [Flag(now.sawHint), Flag(now.escaped), Ratio(now.steps, c.maxSteps), Flag(now.hazardActive)],
      Facts(
        currentIndex := 0,
        currentSlotKnown := true,
        progressFraction := if now.escaped then 1.0 else 0.3,
        isLastStepIndex := true,
        canFinish := now.sawHint && !now.escaped,
        fullyVisible := true,
        steps := now.steps,
        maxSteps := c.maxSteps,
        family := MazeFacts(c.targetColor, if now.sawHint then c.targetColor else "", now.sawHint, now.escaped,
                            Some(now.hazardActive)),
        setup := Some(SetupFacts(
          if !c.hazardPresent then SafeNoHazard else if now.hazardActive then PreSetup else PostSetupDone,
          !now.hazardActive, now.hazardActive))),
      now.terminal)
  }

  /** The facts a step starts from, read back from the published state. */
  function StateFrom(hazardActive: bool, s: WorldState): HazardState
    requires s.facts.family.MazeFacts?
  {
    HazardState(hazardActive, s.facts.family.sawHint, s.facts.family.escaped, s.facts.steps, s.terminal)
  }

  /** A step counts itself, keeps the configuration, reports success, and ends the
      episode on success or when the steps run out. */
  ghost predicate Settled(w: HazardMaze, t: Transition<HazardMaze>) {
    && t.next.config == w.config
    && t.next.build == w.build
    && t.next.now.steps == w.now.steps + 1
    && (t.success <==> t.next.now.escaped)
    && (t.next.now.terminal <==> t.success || t.next.now.steps >= w.config.maxSteps)
  }

  function Step(w: HazardMaze, a: Action): (r: Result<Transition<HazardMaze>, StepError>)
    ensures r.Ok? ==> Settled(w, r.value)
  {
    if !ValidAction(a, SpecsFor(w.build.specDoors)) then Err(ContractError) else
    var now := w.now;
    if a.Inspect? then
      if w.config.hazardPresent && now.hazardActive then
        Ok(Finish(w, now.(sawHint := true, hazardActive := false), 0.12, 1.0))
      else Ok(Finish(w, now.(sawHint := true), if w.config.hazardPresent then -0.02 else 0.02, 0.0))
    else if a.door != w.config.targetColor then Ok(Finish(w, now, -0.25, 0.0))
    else if now.hazardActive then Ok(Finish(w, now, -0.35, 0.0))
    else Ok(Finish(w, now.(escaped := true), 1.0, 0.0))
  }

  function Finish(w: HazardMaze, now: HazardState, reward: real, informationGain: real): (t: Transition<HazardMaze>)
    requires now.steps == w.now.steps
    ensures Settled(w, t)
  {
    var done := now.escaped || now.steps + 1 >= w.config.maxSteps;
    Transition(w.(now := now.(steps := now.steps + 1, terminal := done)), reward, now.escaped, informationGain)
  }

  function Candidates(w: HazardMaze): seq<Action> {
    [Inspect] + MemoryMazes.MoveEach(w.config.doors)
  }

  function Expert(w: HazardMaze): Action {
    if w.now.hazardActive then Inspect else Move(w.config.targetColor)
  }

  class MazeHazardWorld {
    var config: HazardConfig
    var hazardActive: bool
    var state: WorldState
    const build: HazardBuild

    ghost predicate Valid()
      reads this
    {
      state.facts.family.MazeFacts? && Model().Valid() && state == View(Model())
    }

    ghost function Model(): HazardMazeData
      requires state.facts.family.MazeFacts?
      reads this
    {
      HazardMazeData(config, build, StateFrom(hazardActive, state))
    }

    constructor (config: HazardConfig, hazardActive: bool)
      requires 0 < |config.doors| && 0 < config.maxSteps
      ensures Valid() && Model() == Start(config, hazardActive)
    {
      this.config := config;
      this.hazardActive := hazardActive && config.hazardPresent;
      build := HazardBuild(config.doors, hazardActive && config.hazardPresent);
      state := View(Start(config, hazardActive));
    }

    method ResetWorld()
      requires Valid()
      modifies this
      ensures Valid()
      ensures Model() == old(Model()).(now :=
        HazardState(build.initialHazardActive, old(config.initialSawHint), false, 0, false))
    {
      hazardActive := build.initialHazardActive;
      state := StateOf(config, HazardState(hazardActive, config.initialSawHint, false, 0, false));
    }

    method StepWorld(a: Action) returns (r: Result<Transition<WorldState>, StepError>)
      requires Valid()
      modifies this
      ensures Valid()
      ensures match Step(old(Model()), a)
        case Err(e) => r == Err(e) && unchanged(this)
        case Ok(t) => Model() == t.next && r == Ok(Transition(state, t.reward, t.success, t.informationGain))
    {
      if !ValidAction(a, SpecsFor(build.specDoors)) {
        return Err(ContractError);
      }
      var now := StateFrom(hazardActive, state);
      var reward, informationGain := -0.02, 0.0;
      if a.Inspect? {
        if config.hazardPresent && now.hazardActive {
          now := now.(hazardActive := false);
          reward, informationGain := 0.12, 1.0;
        } else if !config.hazardPresent {
          reward := 0.02;
        }
        now := now.(sawHint := true);
      } else if a.door == config.targetColor && !now.hazardActive {
        now := now.(escaped := true);
        reward := 1.0;
      } else {
        reward := if a.door == config.targetColor then -0.35 else -0.25;
      }
      assert Step(old(Model()), a) == Ok(Finish(old(Model()), now, reward, informationGain));
      var steps := now.steps + 1;
      hazardActive := now.hazardActive;
      state := StateOf(config, now.(steps := steps, terminal := now.escaped || steps >= config.maxSteps));
      r := Ok(Transition(state, reward, now.escaped, informationGain));
    }

    method Snapshot() returns (snapshot: HazardSnapshot)
      requires Valid()
      ensures snapshot == HazardSnapshot(Model().config, Model().now)
    {
      snapshot := HazardSnapshot(config, StateFrom(hazardActive, state));
    }

    /** The configuration and the state become the snapshot's; the build stays this world's. */
    method Restore(s: HazardSnapshot)
      requires Valid()
      requires 0 < |s.config.doors| && 0 < s.config.maxSteps && 0 <= s.now.steps
      modifies this
      ensures Valid() && Model() == HazardMazeData(s.config, build, s.now)
    {
      config, hazardActive := s.config, s.now.hazardActive;
      state := StateOf(config, s.now);
    }
  }
}
