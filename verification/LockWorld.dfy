/** A code lock: reveal unknown slots with inspect, press the digits in order. */
module LockWorlds {
  import opened Wrappers
  import opened Schema

  datatype LockObservation = NoObservation | Inspected(slot: int, value: int)

  /** The world as a value. A snapshot records exactly these components. */
  datatype LockData = LockData(
    code: seq<int>,
    maxSteps: int,
    visibility: Visibility,
    known: seq<bool>,
    lastObservation: LockObservation,
    progress: int,
    steps: int,
    terminal: bool)
  {
    ghost predicate Valid() {
      && 0 < |code| && 0 < maxSteps
      && |known| == |code|
      && 0 <= progress <= |code|
      && 0 <= steps
    }
  }

  type Lock = w: LockData | w.Valid() witness
    LockData([1], 1, Visible, [true], NoObservation, 0, 0, false)

  const SPECS: Specs := map[
    InspectName := ActionSpec(revealsInformation := true),
    PressName := ActionSpec(requiresKnownSlot := true),
    ResetName := ActionSpec()]

  predicate SlotKnown(w: Lock) {
    0 <= w.progress < |w.known| ==> w.known[w.progress]
  }

  function Start(code: seq<int>, maxSteps: int, visibility: Visibility): Lock
    requires 0 < |code| && 0 < maxSteps
  {
    LockData(code, maxSteps, visibility, InitialMask(visibility, |code|), NoObservation, 0, 0, false)
  }

  function View(w: Lock): WorldState
  {
    WorldState(
      [Ratio(w.progress, |w.code|), Ratio(w.steps, w.maxSteps), Flag(w.terminal)],
      Facts(
        currentIndex := w.progress,
        currentSlotKnown := SlotKnown(w),
        progressFraction := Ratio(w.progress, |w.code|),
        isLastStepIndex := w.progress == |w.code| - 1,
        canFinish := SlotKnown(w) && w.progress == |w.code| - 1,
        fullyVisible := w.visibility.Visible?,
        steps := w.steps,
        maxSteps := w.maxSteps,
        family := LockFacts(
          w.code,
          seq(|w.code|, i requires 0 <= i < |w.code| => if w.known[i] then w.code[i] else 0),
          None),
        setup := None),
      w.terminal)
  }

  /** A step counts itself, keeps the configuration, reports success, and ends the
      episode on success or when the steps run out. */
  ghost predicate Settled(w: Lock, t: Transition<Lock>) {
    && t.next.code == w.code
    && t.next.maxSteps == w.maxSteps
    && t.next.visibility == w.visibility
    && t.next.steps == w.steps + 1
    && (t.success <==> t.next.progress >= |w.code|)
    && (t.next.terminal <==> t.success || t.next.steps >= w.maxSteps)
  }

  function Step(w: Lock, a: Action): (r: Result<Transition<Lock>, StepError>)
    ensures r.Ok? ==> Settled(w, r.value)
  {
    if !ValidAction(a, SPECS) then Err(ContractError) else
    match a
    case Inspect =>
      var slot := Min(w.progress, |w.code| - 1);
      var fresh' := !w.known[slot];
      var seen := w.(known := w.known[slot := true], lastObservation := Inspected(slot, w.code[slot]));
      Ok(Finish(seen, w.progress, if fresh' then 0.05 else -0.01, Flag(fresh')))
    case Reset => Ok(Finish(w, 0, -0.01, 0.0))
    case Press(digit) =>
      if w.progress >= |w.code| then Err(IndexError)
      else if digit == w.code[w.progress] then Ok(Finish(w, w.progress + 1, 0.2, 0.0))
      else Ok(Finish(w, 0, -0.2, 0.0))
  }

  function Finish(w: Lock, progress: int, reward: real, informationGain: real): (t: Transition<Lock>)
    requires 0 <= progress <= |w.code|
    ensures Settled(w, t)
  {
    var success := progress >= |w.code|;
    var done := success || w.steps + 1 >= w.maxSteps;
    Transition(w.(progress := progress, steps := w.steps + 1, terminal := done),
               if success then 1.0 else reward, success, informationGain)
  }

  const KEYPAD: seq<Action> := [Press(1), Press(2), Press(3), Press(4), Reset]

  function Candidates(w: Lock): seq<Action> {
    if SlotKnown(w) then KEYPAD else [Inspect] + KEYPAD
  }

  function Expert(w: Lock): Action
  {
    if w.progress >= |w.code| then Reset
    else if !SlotKnown(w) then Inspect
    else Press(w.code[w.progress])
  }

  class LockWorld {
    var code: seq<int>
    var maxSteps: int
    var visibility: Visibility
    var knownMask: seq<bool>
    var lastObservation: LockObservation
    var state: WorldState

    /** The published state is the one the other fields determine. */
    ghost predicate Valid()
      reads this
    {
      Model().Valid() && state == View(Model())
    }

    ghost function Model(): LockData
      reads this
    {
      LockData(code, maxSteps, visibility, knownMask, lastObservation,
           state.facts.currentIndex, state.facts.steps, state.terminal)
    }

    constructor (code: seq<int>, maxSteps: int, visibility: Visibility)
      requires 0 < |code| && 0 < maxSteps
      ensures Valid() && Model() == Start(code, maxSteps, visibility)
    {
      this.code, this.maxSteps, this.visibility := code, maxSteps, visibility;
      knownMask := InitialMask(visibility, |code|);
      lastObservation := NoObservation;
      state := View(Start(code, maxSteps, visibility));
    }

    method ResetWorld()
      requires Valid()
      modifies this
      ensures Valid() && Model() == Start(old(code), old(maxSteps), old(visibility))
    {
      knownMask := InitialMask(visibility, |code|);
      lastObservation := NoObservation;
      state := MakeState(0, 0, false);
    }

    function MakeState(progress: int, steps: int, terminal: bool): WorldState
      requires 0 < |code| == |knownMask| && 0 < maxSteps && 0 <= progress <= |code| && 0 <= steps
      reads this
    {
      View(LockData(code, maxSteps, visibility, knownMask, lastObservation, progress, steps, terminal))
    }

    method StepWorld(a: Action) returns (r: Result<Transition<WorldState>, StepError>)
      requires Valid()
      modifies this
      ensures Valid()
      ensures match Step(old(Model()), a)
        case Err(e) => r == Err(e) && unchanged(this)
        case Ok(t) => Model() == t.next && r == Ok(Transition(state, t.reward, t.success, t.informationGain))
    {
      if !ValidAction(a, SPECS) {
        return Err(ContractError);
      }
      var progress, steps := state.facts.currentIndex, state.facts.steps + 1;
      var reward, informationGain := -0.01, 0.0;
      match a {
        case Inspect =>
          var slot := Min(progress, |code| - 1);
          if !knownMask[slot] {
            knownMask := knownMask[slot := true];
            informationGain := 1.0;
            reward := 0.05;
          }
          lastObservation := Inspected(slot, code[slot]);
        case Reset =>
          progress := 0;
        case Press(digit) =>
          if progress >= |code| {
            return Err(IndexError);
          }
          if digit == code[progress] {
            progress, reward := progress + 1, 0.2;
          } else {
            progress, reward := 0, -0.2;
          }
      }
      var success := progress >= |code|;
      var done := success || steps >= maxSteps;
      if success {
        reward := 1.0;
      }
      state := MakeState(progress, steps, done);
      r := Ok(Transition(state, reward, success, informationGain));
    }

    method Snapshot() returns (snapshot: Lock)
      requires Valid()
      ensures snapshot == Model()
    {
      snapshot := LockData(code, maxSteps, visibility, knownMask, lastObservation,
                       state.facts.currentIndex, state.facts.steps, state.terminal);
    }

    /** Whatever this world was, it becomes the snapshot's. */
    method Restore(snapshot: Lock)
      modifies this
      ensures Valid() && Model() == snapshot
    {
      code, maxSteps, visibility := snapshot.code, snapshot.maxSteps, snapshot.visibility;
      knownMask, lastObservation := snapshot.known, snapshot.lastObservation;
      state := MakeState(snapshot.progress, snapshot.steps, snapshot.terminal);
    }
  }
}
