/** A lock whose right digit is punished while a trap is armed; inspect disarms it. */
module LockTrapWorlds {
  import opened Wrappers
  import opened Schema

  datatype TrapLockData = TrapLockData(
    code: seq<int>,
    maxSteps: int,
    trapArmed: bool,
    progress: int,
    steps: int,
    terminal: bool)
  {
    ghost predicate Valid() {
      0 < |code| && 0 < maxSteps && 0 <= progress <= |code| && 0 <= steps
    }
  }

  type TrapLock = w: TrapLockData | w.Valid() witness
    TrapLockData([1], 1, true, 0, 0, false)

  const SPECS: Specs := map[
    InspectName := ActionSpec(revealsInformation := true),
    PressName := ActionSpec(requiresKnownSlot := true),
    ResetName := ActionSpec()]

  function Start(code: seq<int>, maxSteps: int): TrapLock
    requires 0 < |code| && 0 < maxSteps
  {
    TrapLockData(code, maxSteps, true, 0, 0, false)
  }

  function View(w: TrapLock): WorldState
  {
    WorldState(
      [Ratio(w.progress, |w.code|), Ratio(w.steps, w.maxSteps), Flag(w.terminal), Flag(w.trapArmed)],
      Facts(
        currentIndex := w.progress,
        currentSlotKnown := w.progress < |w.code|,
        progressFraction := Ratio(w.progress, |w.code|),
        isLastStepIndex := w.progress == |w.code| - 1,
        canFinish := w.progress == |w.code| - 1 && !w.trapArmed,
        fullyVisible := true,
        steps := w.steps,
        maxSteps := w.maxSteps,
        family := LockFacts(w.code, w.code, Some(w.trapArmed)),
        setup := Some(SetupFacts(if w.trapArmed then PreSetup else PostSetupDone, !w.trapArmed, w.trapArmed))),
      w.terminal)
  }

  /** A step counts itself, keeps the configuration, reports success, and ends the
      episode on success or when the steps run out. */
  ghost predicate Settled(w: TrapLock, t: Transition<TrapLock>) {
    && t.next.code == w.code
    && t.next.maxSteps == w.maxSteps
    && t.next.steps == w.steps + 1
    && (t.success <==> t.next.progress >= |w.code|)
    && (t.next.terminal <==> t.success || t.next.steps >= w.maxSteps)
  }

  function Step(w: TrapLock, a: Action): (r: Result<Transition<TrapLock>, StepError>)
    ensures r.Ok? ==> Settled(w, r.value)
  {
    if !ValidAction(a, SPECS) then Err(ContractError) else
    match a
    case Inspect =>
      Ok(Finish(w, w.progress, false, if w.trapArmed then 0.1 else -0.01, Flag(w.trapArmed)))
    case Reset => Ok(Finish(w, 0, true, -0.01, 0.0))
    case Press(digit) =>
      if w.progress >= |w.code| then Err(IndexError)
      else if digit != w.code[w.progress] then Ok(Finish(w, 0, w.trapArmed, -0.2, 0.0))
      else if w.trapArmed then Ok(Finish(w, 0, true, -0.35, 0.0))
      else Ok(Finish(w, w.progress + 1, false, 0.25, 0.0))
  }

  function Finish(w: TrapLock, progress: int, armed: bool, reward: real,
      informationGain: real): (t: Transition<TrapLock>)
    requires 0 <= progress <= |w.code|
    ensures Settled(w, t)
  {
    var success := progress >= |w.code|;
    var done := success || w.steps + 1 >= w.maxSteps;
    Transition(w.(trapArmed := armed, progress := progress, steps := w.steps + 1, terminal := done),
               if success then 1.0 else reward, success, informationGain)
  }

  const CANDIDATES: seq<Action> := [Inspect, Press(1), Press(2), Press(3), Press(4), Reset]

  function Expert(w: TrapLock): Action
  {
    if w.progress >= |w.code| then Reset
    else if w.trapArmed then Inspect
    else Press(w.code[w.progress])
  }

  class LockTrapWorld {
    var code: seq<int>
    var maxSteps: int
    var trapArmed: bool
    var state: WorldState

    ghost predicate Valid()
      reads this
    {
      Model().Valid() && state == View(Model())
    }

    ghost function Model(): TrapLockData
      reads this
    {
      TrapLockData(code, maxSteps, trapArmed, state.facts.currentIndex, state.facts.steps, state.terminal)
    }

    constructor (code: seq<int>, maxSteps: int, trapArmed: bool)
      requires 0 < |code| && 0 < maxSteps
      ensures Valid() && Model() == Start(code, maxSteps).(trapArmed := trapArmed)
    {
      this.code, this.maxSteps, this.trapArmed := code, maxSteps, trapArmed;
      state := View(TrapLockData(code, maxSteps, trapArmed, 0, 0, false));
    }

    method ResetWorld()
      requires Valid()
      modifies this
      ensures Valid() && Model() == Start(old(code), old(maxSteps))
    {
      trapArmed := true;
      state := MakeState(0, 0, false);
    }

    function MakeState(progress: int, steps: int, terminal: bool): WorldState
      requires 0 < |code| && 0 < maxSteps && 0 <= progress <= |code| && 0 <= steps
      reads this
    {
      View(TrapLockData(code, maxSteps, trapArmed, progress, steps, terminal))
    }

    method StepWorld(a: Action) returns (r: Result<Transition<WorldState>, StepError>)
      requires Valid()
      modifies this
      ensures Valid()
      ensures match Step(old(Model()), a)
        case Err(e) => r == Err(e) && unchanged(this)
        case Ok(t) => Model() == t.next && r == Ok(Transition(state, t.reward, t.success, t.informationGain))
    {
      if !ValidAction(a, SPECS) {
        return Err(ContractError);
      }
      var progress, steps, armed := state.facts.currentIndex, state.facts.steps + 1, trapArmed;
      var reward, informationGain := -0.01, 0.0;
      match a {
        case Inspect =>
          if armed {
            armed, reward, informationGain := false, 0.1, 1.0;
          }
        case Reset =>
          progress, armed := 0, true;
        case Press(digit) =>
          if progress >= |code| {
            return Err(IndexError);
          }
          if armed && digit == code[progress] {
            progress, reward := 0, -0.35;
          } else if digit == code[progress] {
            progress, reward := progress + 1, 0.25;
          } else {
            progress, reward := 0, -0.2;
          }
      }
      var success := progress >= |code|;
      var done := success || steps >= maxSteps;
      if success {
        reward := 1.0;
      }
      trapArmed := armed;
      state := MakeState(progress, steps, done);
      r := Ok(Transition(state, reward, success, informationGain));
    }

    method Snapshot() returns (snapshot: TrapLock)
      requires Valid()
      ensures snapshot == Model()
    {
      snapshot := TrapLockData(code, maxSteps, trapArmed, state.facts.currentIndex, state.facts.steps, state.terminal);
    }

    method Restore(snapshot: TrapLock)
      modifies this
      ensures Valid() && Model() == snapshot
    {
      code, maxSteps, trapArmed := snapshot.code, snapshot.maxSteps, snapshot.trapArmed;
      state := MakeState(snapshot.progress, snapshot.steps, snapshot.terminal);
    }
  }
}
