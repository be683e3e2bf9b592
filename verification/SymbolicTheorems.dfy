/** The symbolic predictor is exact in the ordinary worlds and close enough in the model-needed ones. */
module SymbolicTheorems {
  import opened Wrappers
  import opened Schema
  import opened Gate
  import opened Episodes
  import opened Accuracy
  import opened SymbolicPredictor
  import opened LockPlay
  import opened ToolPlay
  import opened MemoryMazePlay
  import opened LockTrapPlay
  import opened MazeHazardPlay
  import opened ToolPreconditionPlay
  import LockWorlds
  import ToolWorlds
  import MemoryMazes
  import LockTrapWorlds
  import MazeHazardWorlds
  import ToolPreconditionWorlds

  /** The predictor as an agent uses it. States it cannot index are terminal and never predicted. */
  function Symbolic<W(!new)>(sim: Sim<W>): Predictor<W> {
    (w: W, a: Action) => PredictOrGiveUp(sim.view(w), a)
  }

  function PredictOrGiveUp(s: WorldState, a: Action): Prediction {
    if 0 < s.facts.maxSteps && Indexed(s) then Predict(s, a)
    else Prediction(s.vector, 0.0, true, 0.0, None, None, None)
  }

  /** The prediction is the step: next vector, reward, terminal flag and information gain. */
  predicate Exact<W(!new)>(sim: Sim<W>, w: W, a: Action) {
    var p := Symbolic(sim)(w, a);
    && ValidPrediction(p, |sim.view(w).vector|)
    && (sim.step(w, a).Ok? ==>
          var t := sim.step(w, a).value;
          && p.nextVector == sim.view(t.next).vector
          && p.reward == t.reward
          && p.terminal == sim.view(t.next).terminal
          && p.informationGain.GetOr(0.0) == t.informationGain)
  }

  lemma ExactInLock(w: LockWorlds.Lock, a: Action)
    requires w.progress < |w.code| && ValidAction(a, LockWorlds.SPECS)
    ensures Exact(LOCK, w, a)
  {
    assert Symbolic(LOCK)(w, a) == PredictLock(LockWorlds.View(w), a);
    assert LOCK.step(w, a) == LockWorlds.Step(w, a);
    LockPredictionIsStep(w, a);
  }

  lemma LockPredictionIsStep(w: LockWorlds.Lock, a: Action)
    requires w.progress < |w.code| && ValidAction(a, LockWorlds.SPECS)
    ensures var p := PredictLock(LockWorlds.View(w), a);
      var stepped := LockWorlds.Step(w, a);
      && stepped.Ok? && ValidPrediction(p, 3)
      && p.nextVector == LockWorlds.View(stepped.value.next).vector
      && p.reward == stepped.value.reward
      && p.terminal == stepped.value.next.terminal
      && p.informationGain.GetOr(0.0) == stepped.value.informationGain
  {
    var s := LockWorlds.View(w);
    assert s.facts.currentSlotKnown == LockWorlds.SlotKnown(w) && s.facts.family.code == w.code;
    if a.Inspect? {
    } else if a.Reset? {
    } else if a.digit == w.code[w.progress] {
    } else {
    }
  }

  lemma ExactInTool(w: ToolWorlds.ToolChain, a: Action)
    requires w.stage < |w.sequence| && ValidAction(a, ToolWorlds.SpecsFor(w.sequence))
    ensures Exact(TOOL, w, a)
  {
    assert Symbolic(TOOL)(w, a) == PredictTool(ToolWorlds.View(w), a);
    assert TOOL.step(w, a) == ToolWorlds.Step(w, a);
    ToolPredictionIsStep(w, a.tool);
  }

  /** The prediction for a tool is the step. */
  predicate ToolPredicted(w: ToolWorlds.ToolChain, t: Tool)
    requires w.stage < |w.sequence|
  {
    var p, stepped := PredictTool(ToolWorlds.View(w), Use(t)), ToolWorlds.Step(w, Use(t));
    && stepped.Ok? && ValidPrediction(p, 3)
    && p.nextVector == ToolWorlds.View(stepped.value.next).vector
    && p.reward == stepped.value.reward
    && p.terminal == stepped.value.next.terminal
    && p.informationGain.GetOr(0.0) == stepped.value.informationGain
  }

  lemma RevealIsPredicted(w: ToolWorlds.ToolChain, t: Tool)
    requires w.stage < |w.sequence| && t in w.sequence && !ToolWorlds.SlotKnown(w) && ToolWorlds.Reveals(t)
    ensures ToolPredicted(w, t)
  {
  }

  lemma AdvanceIsPredicted(w: ToolWorlds.ToolChain, t: Tool)
    requires w.stage < |w.sequence| && t in w.sequence && (ToolWorlds.SlotKnown(w) || !ToolWorlds.Reveals(t))
    requires t == ToolWorlds.Expected(w)
    ensures ToolPredicted(w, t)
  {
  }

  lemma FallBackIsPredicted(w: ToolWorlds.ToolChain, t: Tool)
    requires w.stage < |w.sequence| && t in w.sequence && (ToolWorlds.SlotKnown(w) || !ToolWorlds.Reveals(t))
    requires t != ToolWorlds.Expected(w)
    ensures ToolPredicted(w, t)
  {
    var stepped := ToolWorlds.Step(w, Use(t));
    assert stepped == Ok(ToolWorlds.Finish(w, Max(0, w.stage - 1), -0.1, 0.0));
    assert !stepped.value.success;
  }

  lemma ToolPredictionIsStep(w: ToolWorlds.ToolChain, t: Tool)
    requires w.stage < |w.sequence| && t in w.sequence
    ensures ToolPredicted(w, t)
  {
    if !ToolWorlds.SlotKnown(w) && ToolWorlds.Reveals(t) {
      RevealIsPredicted(w, t);
    } else if t == ToolWorlds.Expected(w) {
      AdvanceIsPredicted(w, t);
    } else {
      FallBackIsPredicted(w, t);
    }
  }

  lemma ExactInMaze(w: MemoryMazes.Maze, a: Action)
    requires ValidAction(a, MemoryMazes.SpecsFor(w.doors))
    ensures Exact(MAZE, w, a)
  {
  }

  lemma {:induction false} NoDistanceToItself(v: seq<real>)
    ensures SquareSum(v, v) == 0.0
  {
    if v != [] {
      NoDistanceToItself(v[1..]);
    }
  }

  /** Where the predictor is exact before success, no episode of any policy has a prediction error. */
  lemma {:induction false} ExactNeverErrs<W(!new)>(sim: Sim<W>, policy: Policy<W>, w: W, left: nat)
    requires sim.Lawful() && sim.Consistent(w)
    requires forall v, a :: !sim.success(v) && sim.step(v, a).Ok? ==> Exact(sim, v, a)
    ensures forall e :: e in Play(sim, policy, Some(Symbolic(sim)), w, left).errors ==> e == 0.0
    decreases left
  {
    if !sim.view(w).terminal && left > 0 && TakeTurn(sim, policy, Some(Symbolic(sim)), w).Some? {
      var a := policy(w).value;
      assert Exact(sim, w, a) && sim.Settles(w, a);
      var t := sim.step(w, a).value;
      NoDistanceToItself(sim.view(t.next).vector);
      ExactNeverErrs(sim, policy, t.next, left - 1);
    }
  }

  lemma LockErrorIsZero(policy: Policy<LockWorlds.Lock>, w: LockWorlds.Lock, left: nat)
    requires LOCK.Consistent(w)
    ensures forall e :: e in Play(LOCK, policy, Some(Symbolic(LOCK)), w, left).errors ==> e == 0.0
  {
    LockLawful();
    forall v, a | !LOCK.success(v) && LOCK.step(v, a).Ok? ensures Exact(LOCK, v, a) {
      ExactInLock(v, a);
    }
    ExactNeverErrs(LOCK, policy, w, left);
  }

  lemma ToolErrorIsZero(policy: Policy<ToolWorlds.ToolChain>, w: ToolWorlds.ToolChain, left: nat)
    requires TOOL.Consistent(w)
    ensures forall e :: e in Play(TOOL, policy, Some(Symbolic(TOOL)), w, left).errors ==> e == 0.0
  {
    ToolLawful();
    forall v, a | !TOOL.success(v) && TOOL.step(v, a).Ok? ensures Exact(TOOL, v, a) {
      ExactInTool(v, a);
    }
    ExactNeverErrs(TOOL, policy, w, left);
  }

  lemma MazeErrorIsZero(policy: Policy<MemoryMazes.Maze>, w: MemoryMazes.Maze, left: nat)
    requires MAZE.Consistent(w)
    ensures forall e :: e in Play(MAZE, policy, Some(Symbolic(MAZE)), w, left).errors ==> e == 0.0
  {
    MazeLawful();
    forall v, a | !MAZE.success(v) && MAZE.step(v, a).Ok? ensures Exact(MAZE, v, a) {
      ExactInMaze(v, a);
    }
    ExactNeverErrs(MAZE, policy, w, left);
  }

  // ---------- the model-needed worlds: where it is exact ----------

  /** The prediction for an action, compared with the step: next vector, reward, terminal flag, information gain. */
  predicate Agrees<W(!new)>(sim: Sim<W>, w: W, a: Action, p: Prediction) {
    sim.step(w, a).Ok? ==>
      var t := sim.step(w, a).value;
      && p.nextVector == sim.view(t.next).vector
      && p.reward == t.reward
      && p.terminal == sim.view(t.next).terminal
      && p.informationGain.GetOr(0.0) == t.informationGain
  }

  lemma TrapInspectAgrees(w: LockTrapWorlds.TrapLock)
    requires w.progress < |w.code|
    ensures Agrees(TRAP, w, Inspect, PredictLock(LockTrapWorlds.View(w), Inspect))
  {
  }

  lemma TrapPressAgrees(w: LockTrapWorlds.TrapLock, digit: int)
    requires w.progress < |w.code|
    ensures Agrees(TRAP, w, Press(digit), PredictLock(LockTrapWorlds.View(w), Press(digit)))
       <==> w.trapArmed || digit != w.code[w.progress] || w.progress + 1 == |w.code|
  {
  }

  lemma TrapResetAgrees(w: LockTrapWorlds.TrapLock)
    requires w.progress < |w.code|
    ensures Agrees(TRAP, w, Reset, PredictLock(LockTrapWorlds.View(w), Reset)) <==> w.trapArmed
  {
    var s, t := LockTrapWorlds.View(w), LockTrapWorlds.Step(w, Reset).value;
    assert PredictLock(s, Reset).nextVector[3] == Flag(w.trapArmed) && LockTrapWorlds.View(t.next).vector[3] == 1.0;
  }

  /** In the trapped lock the predictor is exact on every action, except after disarming: there it does not know that a
      reset arms the trap again, nor what a right digit pays that does not yet open the lock. */
  lemma ExactlyInTrap(w: LockTrapWorlds.TrapLock, a: Action)
    requires w.progress < |w.code| && ValidAction(a, LockTrapWorlds.SPECS)
    ensures Agrees(TRAP, w, a, Symbolic(TRAP)(w, a))
       <==> w.trapArmed || (a != Reset && (a == Press(w.code[w.progress]) ==> w.progress + 1 == |w.code|))
  {
    var s := LockTrapWorlds.View(w);
    assert Indexed(s) && Symbolic(TRAP)(w, a) == PredictLock(s, a);
    if a.Press? {
      TrapPressAgrees(w, a.digit);
    } else if a.Inspect? {
      TrapInspectAgrees(w);
    } else {
      TrapResetAgrees(w);
    }
  }

  /** In the hazardous maze it is exact on an inspect that clears the hazard, and on every door once the hint is seen;
      before that it misjudges the right door alone. */
  lemma ExactlyInHazard(w: MazeHazardWorlds.HazardMaze, a: Action)
    requires Playable(w) && !w.now.escaped && ValidAction(a, MazeHazardWorlds.SpecsFor(w.build.specDoors))
    ensures Agrees(HAZARD, w, a, Symbolic(HAZARD)(w, a))
       <==> if a.Inspect? then w.now.hazardActive else w.now.sawHint || a.door != w.config.targetColor
  {
    var s := MazeHazardWorlds.View(w);
    assert Indexed(s) && Predict(s, a) == PredictMaze(s, a) && Symbolic(HAZARD)(w, a) == PredictMaze(s, a);
    assert MazeHazardWorlds.Step(w, a).Ok?;
    HazardAgrees(w, a);
  }

  lemma HazardAgrees(w: MazeHazardWorlds.HazardMaze, a: Action)
    requires Playable(w) && !w.now.escaped && ValidAction(a, MazeHazardWorlds.SpecsFor(w.build.specDoors))
    ensures Agrees(HAZARD, w, a, PredictMaze(MazeHazardWorlds.View(w), a))
       <==> if a.Inspect? then w.now.hazardActive else w.now.sawHint || a.door != w.config.targetColor
  {
  }

  /** In the guarded chain it is exact on every tool, except a needless search and, away from the first slot, the
      expected tool before the setup. */
  lemma ExactlyInGuarded(w: ToolPreconditionWorlds.GuardedChain, t: Tool)
    requires w.stage < |w.sequence|
    ensures Agrees(GUARDED, w, Use(t), Symbolic(GUARDED)(w, Use(t)))
       <==> if w.preconditionReady then t != Search else t == ToolPreconditionWorlds.Expected(w) ==> w.stage == 0
  {
    var s := ToolPreconditionWorlds.View(w);
    assert Indexed(s) && Symbolic(GUARDED)(w, Use(t)) == PredictTool(s, Use(t));
    if t == Search {
      GuardedSearchAgrees(w);
    } else if t == ToolPreconditionWorlds.Expected(w) {
      GuardedExpectedAgrees(w);
    } else {
      GuardedWrongAgrees(w, t);
    }
  }

  lemma GuardedSearchAgrees(w: ToolPreconditionWorlds.GuardedChain)
    requires w.stage < |w.sequence|
    ensures Agrees(GUARDED, w, Use(Search), PredictTool(ToolPreconditionWorlds.View(w), Use(Search)))
      <==> !w.preconditionReady
  {
    ToolPreconditionPlay.Offered(w);
  }

  lemma GuardedExpectedAgrees(w: ToolPreconditionWorlds.GuardedChain)
    requires w.stage < |w.sequence|
    ensures var a := Use(ToolPreconditionWorlds.Expected(w));
      Agrees(GUARDED, w, a, PredictTool(ToolPreconditionWorlds.View(w), a)) <==> w.preconditionReady || w.stage == 0
  {
    ToolPreconditionPlay.Offered(w);
    var s, a := ToolPreconditionWorlds.View(w), Use(ToolPreconditionWorlds.Expected(w));
    if !w.preconditionReady && w.stage > 0 {
      RatioStep(w.stage - 1, |w.sequence|);
      assert PredictTool(s, a).nextVector[0] == Ratio(w.stage, |w.sequence|);
      assert ToolPreconditionWorlds.View(ToolPreconditionWorlds.Step(w, a).value.next).vector[0]
          == Ratio(w.stage - 1, |w.sequence|);
    }
  }

  lemma GuardedWrongAgrees(w: ToolPreconditionWorlds.GuardedChain, t: Tool)
    requires w.stage < |w.sequence| && t != Search && t != ToolPreconditionWorlds.Expected(w)
    ensures Agrees(GUARDED, w, Use(t), PredictTool(ToolPreconditionWorlds.View(w), Use(t)))
  {
  }

  // ---------- and how far off it is ----------

  /** In the trapped lock the predictor is off by 0.05: it knows 0.2, the world pays 0.25. */
  lemma CloseInTrap(w: LockTrapWorlds.TrapLock)
    requires w.progress < |w.code|
    ensures Faithful(TRAP, Symbolic(TRAP), w, 0.05)
  {
    var s := LockTrapWorlds.View(w);
    forall a | a in LockTrapWorlds.CANDIDATES
      ensures ValidPrediction(Symbolic(TRAP)(w, a), 4)
      ensures !HardBlocked(HybridVeto, LockTrapWorlds.SPECS, s, a) ==> Accurate(TRAP, Symbolic(TRAP), w, a, 0.05)
    {
      assert Symbolic(TRAP)(w, a) == PredictLock(s, a);
      if a.Inspect? {
        TrapInspectPredicted(w);
      } else if a == Press(w.code[w.progress]) {
        TrapPressPredicted(w);
      } else if a.Reset? {
        TrapResetPredicted(w);
      } else {
        assert HardBlocked(HybridVeto, LockTrapWorlds.SPECS, s, a);
      }
    }
  }

  /** The prediction is valid and within 0.05 of the step. */
  predicate TrapPredicted(w: LockTrapWorlds.TrapLock, a: Action)
    requires w.progress < |w.code|
  {
    var s := LockTrapWorlds.View(w);
    var p, stepped := PredictLock(s, a), LockTrapWorlds.Step(w, a);
    && stepped.Ok? && ValidPrediction(p, 4)
    && Close(s, p, LockTrapWorlds.View(stepped.value.next), stepped.value.reward, stepped.value.informationGain, 0.05)
  }

  lemma TrapInspectPredicted(w: LockTrapWorlds.TrapLock)
    requires w.progress < |w.code|
    ensures TrapPredicted(w, Inspect)
  {
  }

  lemma TrapResetPredicted(w: LockTrapWorlds.TrapLock)
    requires w.progress < |w.code|
    ensures TrapPredicted(w, Reset)
  {
  }

  lemma TrapPressPredicted(w: LockTrapWorlds.TrapLock)
    requires w.progress < |w.code|
    ensures TrapPredicted(w, Press(w.code[w.progress]))
  {
  }

  /** In the hazardous maze it is off by at most 0.12, the reward of a needless inspect. */
  lemma CloseInHazard(w: MazeHazardWorlds.HazardMaze)
    requires Playable(w) && !w.now.escaped && w.now.sawHint
    ensures Faithful(HAZARD, Symbolic(HAZARD), w, 0.12)
  {
    MazeHazardPlay.Offered(w);
    forall a | a in MazeHazardWorlds.Candidates(w)
      ensures ValidPrediction(Symbolic(HAZARD)(w, a), 4) && Accurate(HAZARD, Symbolic(HAZARD), w, a, 0.12)
    {
      var s := MazeHazardWorlds.View(w);
      assert Indexed(s) && Predict(s, a) == PredictMaze(s, a) && Symbolic(HAZARD)(w, a) == PredictMaze(s, a);
      HazardPredicted(w, a);
    }
  }

  lemma HazardPredicted(w: MazeHazardWorlds.HazardMaze, a: Action)
    requires Playable(w) && !w.now.escaped && w.now.sawHint
    requires ValidAction(a, MazeHazardWorlds.SpecsFor(w.build.specDoors))
    ensures var s := MazeHazardWorlds.View(w);
      var p, stepped := PredictMaze(s, a), MazeHazardWorlds.Step(w, a);
      && stepped.Ok? && ValidPrediction(p, 4)
      && Close(s, p, MazeHazardWorlds.View(stepped.value.next), stepped.value.reward, stepped.value.informationGain,
           0.12)
  {
  }

  /** In the guarded chain it is exact on every action the gate does not block. */
  lemma CloseInGuarded(w: ToolPreconditionWorlds.GuardedChain)
    requires w.stage < |w.sequence| && (w.preconditionReady || w.stage == 0)
    ensures Faithful(GUARDED, Symbolic(GUARDED), w, 0.0)
  {
    ToolPreconditionPlay.Offered(w);
    var s := ToolPreconditionWorlds.View(w);
    forall a | a in ToolPreconditionWorlds.CANDIDATES
      ensures ValidPrediction(Symbolic(GUARDED)(w, a), 4)
      ensures !HardBlocked(HybridVeto, ToolPreconditionWorlds.SPECS, s, a)
        ==> Accurate(GUARDED, Symbolic(GUARDED), w, a, 0.0)
    {
      assert Symbolic(GUARDED)(w, a) == PredictTool(s, a);
      if w.preconditionReady && a == Use(Search) {
        assert HardBlocked(HybridVeto, ToolPreconditionWorlds.SPECS, s, a);
      } else if w.preconditionReady {
        ReadyPrediction(w, a.tool);
      } else {
        UnreadyPrediction(w, a.tool);
      }
    }
  }

  predicate GuardedPredictionClose(w: ToolPreconditionWorlds.GuardedChain, t: Tool)
    requires w.stage < |w.sequence|
  {
    var s := ToolPreconditionWorlds.View(w);
    var p := PredictTool(s, Use(t));
    var stepped := ToolPreconditionWorlds.Step(w, Use(t));
    && stepped.Ok? && ValidPrediction(p, 4)
    && Close(s, p, ToolPreconditionWorlds.View(stepped.value.next), stepped.value.reward, stepped.value.informationGain,
         0.0)
  }

  lemma UnreadyPrediction(w: ToolPreconditionWorlds.GuardedChain, t: Tool)
    requires w.stage == 0 && !w.preconditionReady
    ensures GuardedPredictionClose(w, t)
  {
    if t == Search {
    } else if t != ToolPreconditionWorlds.Expected(w) {
    } else {
    }
  }

  lemma ReadyPrediction(w: ToolPreconditionWorlds.GuardedChain, t: Tool)
    requires w.stage < |w.sequence| && w.preconditionReady && t != Search
    ensures GuardedPredictionClose(w, t)
  {
    if t == ToolPreconditionWorlds.Expected(w) {
    } else {
    }
  }

  /** The hand-written predictor makes hybrid_veto win every model-needed world in the fewest possible steps, while
      hybrid without the veto and the prior alone never win one with it. */
  lemma SymbolicVetoWinsTrap(code: seq<int>, maxSteps: int)
    requires 0 < |code| < maxSteps && Typable(code)
    ensures WinsIn(TRAP, GatePolicy(TRAP, HybridVeto, Symbolic(TRAP)), LockTrapWorlds.Start(code, maxSteps), |code| + 1)
    ensures !EverWins(TRAP, GatePolicy(TRAP, Hybrid, Symbolic(TRAP)), LockTrapWorlds.Start(code, maxSteps))
    ensures !EverWins(TRAP, GatePolicy(TRAP, PriorOnly, Symbolic(TRAP)), LockTrapWorlds.Start(code, maxSteps))
  {
    forall w: LockTrapWorlds.TrapLock | TrapPath(code, maxSteps, w) && !w.terminal
      ensures Faithful(TRAP, Symbolic(TRAP), w, 0.05)
    {
      CloseInTrap(w);
    }
    ToleratedAtAnyLength(|code|, 0.05);
    TrapVetoWins(code, maxSteps, Symbolic(TRAP), 0.05);
    forall w: LockTrapWorlds.TrapLock | Trapped(code, maxSteps, w) ensures AboveBlock(TRAP, Symbolic(TRAP), w) {
      SymbolicAboveBlockInTrap(w);
    }
    TrapLivelock(code, maxSteps, Hybrid, Symbolic(TRAP));
    TrapLivelock(code, maxSteps, PriorOnly, Symbolic(TRAP));
  }

  lemma LockPredictionBounded(s: WorldState, a: Action)
    requires s.facts.family.LockFacts? && 0 < s.facts.maxSteps && Indexed(s) && s.vector[0] <= 1.0
    ensures var p := PredictLock(s, a);
      p.reward >= -0.35 && p.progressDelta.Some? && p.progressDelta.value >= -1.0 && 0.0 <= p.informationGain.GetOr(0.0)
  {
  }

  lemma SymbolicAboveBlockInTrap(w: LockTrapWorlds.TrapLock)
    ensures AboveBlock(TRAP, Symbolic(TRAP), w)
  {
    var s := LockTrapWorlds.View(w);
    assert 0.0 <= s.vector[0] <= 1.0;
    forall a | a in LockTrapWorlds.CANDIDATES && ValidPrediction(Symbolic(TRAP)(w, a), 4)
      ensures ModelScore(s, Symbolic(TRAP)(w, a)) > -1000000.0
    {
      if Indexed(s) {
        LockPredictionBounded(s, a);
      }
      var p := PredictOrGiveUp(s, a);
      assert Symbolic(TRAP)(w, a) == p;
      assert PredictedGain(s, p) >= -1.0 && SuccessScore(p) >= 0.0;
    }
  }

  lemma SymbolicVetoWinsHazard(c: MazeHazardWorlds.HazardConfig, active: bool)
    requires GoodConfig(c) && (if MustLook(c, active) then 2 else 1) <= c.maxSteps
    ensures WinsIn(HAZARD, GatePolicy(HAZARD, HybridVeto, Symbolic(HAZARD)), MazeHazardWorlds.Start(c, active),
                   if MustLook(c, active) then 2 else 1)
    ensures active && c.hazardPresent && c.initialSawHint ==>
      && !EverWins(HAZARD, GatePolicy(HAZARD, Hybrid, Symbolic(HAZARD)), MazeHazardWorlds.Start(c, active))
      && !EverWins(HAZARD, GatePolicy(HAZARD, PriorOnly, Symbolic(HAZARD)), MazeHazardWorlds.Start(c, active))
  {
    var predictor := Symbolic(HAZARD);
    forall w: MazeHazardWorlds.HazardMaze | HazardPath(c, active, w) ensures Reliable(predictor, w, 0.12) {
      if w.now.sawHint {
        CloseInHazard(w);
      } else {
        SymbolicAboveBlockInHazard(w);
        SymbolicValidInHazard(w);
      }
    }
    HazardVetoWins(c, active, predictor, 0.12);
    if active && c.hazardPresent && c.initialSawHint {
      SymbolicLosesHazard(c);
    }
  }

  lemma SymbolicValidInHazard(w: MazeHazardWorlds.HazardMaze)
    ensures forall a :: a in MazeHazardWorlds.Candidates(w) ==> ValidPrediction(Symbolic(HAZARD)(w, a), 4)
  {
    var s := MazeHazardWorlds.View(w);
    forall a | a in MazeHazardWorlds.Candidates(w) ensures ValidPrediction(Symbolic(HAZARD)(w, a), 4) {
      assert Indexed(s) && Predict(s, a) == PredictMaze(s, a) && PredictOrGiveUp(s, a) == PredictMaze(s, a);
    }
  }

  lemma SymbolicAboveBlockInHazard(w: MazeHazardWorlds.HazardMaze)
    ensures AboveBlock(HAZARD, Symbolic(HAZARD), w)
  {
    var s := MazeHazardWorlds.View(w);
    forall a | a in MazeHazardWorlds.Candidates(w) && ValidPrediction(Symbolic(HAZARD)(w, a), 4)
      ensures ModelScore(s, Symbolic(HAZARD)(w, a)) > -1000000.0
    {
      var p := PredictMaze(s, a);
      assert Indexed(s) && Predict(s, a) == p && PredictOrGiveUp(s, a) == p;
      assert p.reward >= -0.35 && PredictedGain(s, p) >= -1.0 && SuccessScore(p) >= 0.0;
    }
  }

  lemma SymbolicLosesHazard(c: MazeHazardWorlds.HazardConfig)
    requires GoodConfig(c) && c.hazardPresent && c.initialSawHint
    ensures !EverWins(HAZARD, GatePolicy(HAZARD, Hybrid, Symbolic(HAZARD)), MazeHazardWorlds.Start(c, true))
    ensures !EverWins(HAZARD, GatePolicy(HAZARD, PriorOnly, Symbolic(HAZARD)), MazeHazardWorlds.Start(c, true))
  {
    forall w: MazeHazardWorlds.HazardMaze | Endangered(c, w) ensures AboveBlock(HAZARD, Symbolic(HAZARD), w) {
      SymbolicAboveBlockInHazard(w);
    }
    HazardLivelock(c, Hybrid, Symbolic(HAZARD));
    HazardLivelock(c, PriorOnly, Symbolic(HAZARD));
  }

  lemma SymbolicVetoWinsGuarded(sequence: seq<Tool>, maxSteps: int)
    requires 0 < |sequence| < maxSteps && ToolPreconditionWorlds.ExecutionSequence(sequence)
    ensures WinsIn(GUARDED, GatePolicy(GUARDED, HybridVeto, Symbolic(GUARDED)),
                   ToolPreconditionWorlds.Start(sequence, maxSteps), |sequence| + 1)
    ensures !EverWins(GUARDED, GatePolicy(GUARDED, Hybrid, Symbolic(GUARDED)),
      ToolPreconditionWorlds.Start(sequence, maxSteps))
    ensures !EverWins(GUARDED, GatePolicy(GUARDED, PriorOnly, Symbolic(GUARDED)),
      ToolPreconditionWorlds.Start(sequence, maxSteps))
  {
    forall w: ToolPreconditionWorlds.GuardedChain | GuardedPath(sequence, maxSteps, w) && !w.terminal
      ensures Faithful(GUARDED, Symbolic(GUARDED), w, 0.0)
    {
      CloseInGuarded(w);
    }
    assert 0.0 <= 0.0 <= Tolerance(sequence);
    GuardedVetoWins(sequence, maxSteps, Symbolic(GUARDED), 0.0);
    SymbolicLosesGuarded(sequence, maxSteps);
  }

  lemma SymbolicAboveBlockInGuarded(w: ToolPreconditionWorlds.GuardedChain)
    requires w.stage == 0
    ensures AboveBlock(GUARDED, Symbolic(GUARDED), w)
  {
    var s := ToolPreconditionWorlds.View(w);
    forall a | a in ToolPreconditionWorlds.CANDIDATES && ValidPrediction(Symbolic(GUARDED)(w, a), 4)
      ensures ModelScore(s, Symbolic(GUARDED)(w, a)) > -1000000.0
    {
      var p := PredictTool(s, a);
      assert Symbolic(GUARDED)(w, a) == p && s.vector[0] == 0.0;
      assert p.reward >= -0.3 && PredictedGain(s, p) >= 0.0 && SuccessScore(p) >= 0.0;
    }
  }

  lemma SymbolicLosesGuarded(sequence: seq<Tool>, maxSteps: int)
    requires 0 < |sequence| && 0 < maxSteps && ToolPreconditionWorlds.ExecutionSequence(sequence)
    ensures !EverWins(GUARDED, GatePolicy(GUARDED, Hybrid, Symbolic(GUARDED)),
      ToolPreconditionWorlds.Start(sequence, maxSteps))
    ensures !EverWins(GUARDED, GatePolicy(GUARDED, PriorOnly, Symbolic(GUARDED)),
      ToolPreconditionWorlds.Start(sequence, maxSteps))
  {
    forall w: ToolPreconditionWorlds.GuardedChain | Unready(sequence, maxSteps, w)
      ensures AboveBlock(GUARDED, Symbolic(GUARDED), w) {
      SymbolicAboveBlockInGuarded(w);
    }
    GuardedLivelock(sequence, maxSteps, Hybrid, Symbolic(GUARDED));
    GuardedLivelock(sequence, maxSteps, PriorOnly, Symbolic(GUARDED));
  }

  // ---------- what the forecasts leave open ----------

  /** The predictor never gives a probability of success. It states progress for locks and for the setup of a guarded
      chain, as the change of its own first component, and nowhere else. It trusts its looks least. */
  lemma ForecastStatesProgressExactly(s: WorldState, a: Action)
    requires 0 < s.facts.maxSteps && Indexed(s) && 0 < |s.vector|
    requires !s.facts.family.MazeFacts?
      ==> s.vector[0] == Ratio(s.facts.currentIndex,
                               if s.facts.family.LockFacts? then |s.facts.family.code| else |s.facts.family.sequence|)
    ensures var p, f := Predict(s, a), s.facts.family;
      var setup := f.ToolFacts? && f.preconditionReady == Some(false)
                   && (a == Use(Search) || a == Use(f.sequence[Min(s.facts.currentIndex, |f.sequence| - 1)]));
      var look := if f.LockFacts? then a == Inspect
                  else f.ToolFacts? && !setup && !s.facts.currentSlotKnown && (a == Use(Search) || a == Use(Read));
      && p.successProbability == None
      && (p.progressDelta != None <==> f.LockFacts? || setup)
      && (p.progressDelta != None ==> p.progressDelta == Some(p.nextVector[0] - s.vector[0]))
      && p.confidence == if look then 0.8 else if f.LockFacts? then 0.9 else 0.85
  {
  }
}
