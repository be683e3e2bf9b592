/** The hand-written predictor: from the published state and an action to a prediction. */
module SymbolicPredictor {
  import opened Wrappers
  import opened Schema

  /** Cut to size, or filled up with zeros. */
  function Pad(values: seq<real>, size: nat): (padded: seq<real>)
    ensures |padded| == size
    ensures forall i :: 0 <= i < size ==> padded[i] == if i < |values| then values[i] else 0.0
  {
    seq(size, i requires 0 <= i < size => if i < |values| then values[i] else 0.0)
  }

  function Predict(s: WorldState, a: Action): Prediction
    requires 0 < s.facts.maxSteps && Indexed(s)
  {
    match s.facts.family
    case LockFacts(_, _, _) => PredictLock(s, a)
    case ToolFacts(_, _, _, _) => PredictTool(s, a)
    case MazeFacts(_, _, _, _, _) => PredictMaze(s, a)
  }

  /** The published position can be looked up in the published code or sequence. */
  predicate Indexed(s: WorldState) {
    match s.facts.family
    case LockFacts(code, _, _) => 0 <= s.facts.currentIndex < |code|
    case ToolFacts(sequence, _, _, _) => 0 <= s.facts.currentIndex && 0 < |sequence|
    case _ => true
  }

  function PredictLock(s: WorldState, a: Action): Prediction
    requires s.facts.family.LockFacts? && 0 < s.facts.maxSteps && Indexed(s)
  {
    var code, progress := s.facts.family.code, s.facts.currentIndex;
    var steps := s.facts.steps + 1;
    var time := Ratio(steps, s.facts.maxSteps);
    var late := steps >= s.facts.maxSteps;
    var armed := s.facts.family.trapArmed.GetOr(false);
    if a.Inspect? then
      var reward := if armed then 0.1 else if !s.facts.currentSlotKnown then 0.05 else -0.01;
      var setup := if armed then 0.0 else s.vector[|s.vector| - 1];
      Prediction(Pad([s.vector[0], time, Flag(late), setup], |s.vector|), reward, late, 0.8, None, Some(0.0),
                 Some(Flag(armed || reward > 0.0)))
    else
      var right := a.Press? && a.digit == code[progress];
      var next := if right && !armed then progress + 1 else 0;
      var reward := if right && armed then -0.35
                    else if right then (if next >= |code| then 1.0 else 0.2)
                    else if a.Reset? then -0.01
                    else -0.2;
      var terminal := next >= |code| || late;
      Prediction(Pad([Ratio(next, |code|), time, Flag(terminal), Flag(armed)], |s.vector|), reward, terminal, 0.9, None,
                 Some(Ratio(next, |code|) - s.vector[0]), None)
  }

  function PredictTool(s: WorldState, a: Action): Prediction
    requires s.facts.family.ToolFacts? && 0 < s.facts.maxSteps && Indexed(s)
  {
    var sequence, stage := s.facts.family.sequence, s.facts.currentIndex;
    var steps := s.facts.steps + 1;
    var time := Ratio(steps, s.facts.maxSteps);
    var late := steps >= s.facts.maxSteps;
    var expected := sequence[Min(stage, |sequence| - 1)];
    var ready := s.facts.family.preconditionReady.GetOr(true);
    if !ready && a == Use(Search) then
      Prediction(Pad([Ratio(stage, |sequence|), time, Flag(late), 1.0], |s.vector|), 0.12, late, 0.85, None, Some(0.0),
        Some(1.0))
    else if !ready && a == Use(expected) then
      Prediction(Pad([Ratio(stage, |sequence|), time, Flag(late), 0.0], |s.vector|), -0.3, late, 0.85, None, Some(0.0),
        None)
    else if !s.facts.currentSlotKnown && (a == Use(Search) || a == Use(Read)) then
      Prediction([s.vector[0], time, Flag(late)], 0.05, late, 0.8, None, None, Some(1.0))
    else
      var next := if a == Use(expected) then stage + 1 else Max(0, stage - 1);
      var reward := if a != Use(expected) then -0.1 else if next >= |sequence| then 1.0 else 0.25;
      var terminal := next >= |sequence| || late;
      Prediction(Pad([Ratio(next, |sequence|), time, Flag(terminal), Flag(ready)], |s.vector|), reward, terminal, 0.85,
                 None, None, None)
  }

  function PredictMaze(s: WorldState, a: Action): Prediction
    requires s.facts.family.MazeFacts? && 0 < s.facts.maxSteps
  {
    var f := s.facts.family;
    var steps := s.facts.steps + 1;
    var active := f.hazardActive.GetOr(false);
    var sawHint := f.sawHint || a.Inspect?;
    var right := a.Move? && f.sawHint && a.door == f.targetColor;
    var escaped := f.escaped || (right && !active);
    var reward := if a.Inspect? then (if active then 0.12 else 0.1)
                  else if right && !active then 1.0
                  else if right then -0.35
                  else -0.25;
    var terminal := escaped || steps >= s.facts.maxSteps;
    var status := if f.hazardActive.Some? then Flag(active && !a.Inspect?) else Flag(terminal);
    Prediction([Flag(sawHint), Flag(escaped), Ratio(steps, s.facts.maxSteps), status], reward, terminal, 0.85,
               None, None, Some(Flag(a.Inspect? && (!f.sawHint || active))))
  }
}
