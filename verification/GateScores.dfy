/** The gate's scores in each world, in numbers. */
module GateScores {
  import opened Wrappers
  import opened Schema
  import opened Gate
  import opened Episodes
  import opened Accuracy
  import LockWorlds
  import opened LockPlay
  import ToolWorlds
  import opened ToolPlay
  import MemoryMazes
  import opened MemoryMazePlay
  import LockTrapWorlds
  import opened LockTrapPlay
  import MazeHazardWorlds
  import opened MazeHazardPlay
  import ToolPreconditionWorlds
  import opened ToolPreconditionPlay

  // ---------- what the published state requires ----------

  predicate Holds<T(==)>(list: seq<T>, i: int, x: T) {
    0 <= i < |list| && list[i] == x
  }

  /** In any published state of a lock: the digit at the current index of the shown code, or of the code itself if
      none is shown, unless it is hidden or the slot unknown. */
  lemma LockRequires(s: WorldState, a: Action)
    requires s.facts.family.LockFacts?
    ensures var f := s.facts.family;
      RequiredAction(s) == Some(a)
      <==> s.facts.currentSlotKnown && a.Press? && a.digit != 0
           && (Holds(f.visibleCode, s.facts.currentIndex, a.digit)
               || (f.visibleCode == [] && Holds(f.code, s.facts.currentIndex, a.digit)))
  {
  }

  /** Of a tool chain: the published tool, or else the one at the current index, shown if anything is shown. */
  lemma ToolRequires(s: WorldState, a: Action)
    requires s.facts.family.ToolFacts?
    ensures var f := s.facts.family;
      RequiredAction(s) == Some(a)
      <==> s.facts.currentSlotKnown && a.Use?
           && (f.requiredTool == Some(a.tool)
               || (f.requiredTool == None && Holds(f.visibleSequence, s.facts.currentIndex, Some(a.tool)))
               || (f.requiredTool == None && f.visibleSequence == []
                 && Holds(f.sequence, s.facts.currentIndex, a.tool)))
  {
  }

  /** Of a maze: the shown colour, or once the hint is seen the target's. */
  lemma MazeRequires(s: WorldState, a: Action)
    requires s.facts.family.MazeFacts?
    ensures var f := s.facts.family;
      RequiredAction(s) == Some(a)
      <==> s.facts.currentSlotKnown && a.Move? && a.door !in ["", "unknown"]
           && (a.door == f.visibleTargetColor
               || (f.visibleTargetColor in ["", "unknown"] && f.sawHint && a.door == f.targetColor))
  {
  }

  // ---------- the guards in any state ----------

  /** Which actions carry out the current slot is decided by the family alone. */
  predicate CarriesOut(s: WorldState, a: Action) {
    (s.facts.family.LockFacts? && a.Press?) || (s.facts.family.ToolFacts? && a.Use?)
      || (s.facts.family.MazeFacts? && a.Move?)
  }

  /** The prior in any state: 1 for the required action and -1.2 for another that carries out the slot; if nothing is
      required, 1 for an action that reveals and -2 for another that carries out a slot or needs to know it; and in any
      case -2 for ending early and -0.8 for giving up progress. */
  lemma PriorInAnyState(specs: Specs, s: WorldState, a: Action)
    requires NameOf(a) in specs
    ensures var spec := specs[NameOf(a)];
      Prior(specs, s, a)
      == (if RequiredAction(s) == Some(a) then 1.0
          else if RequiredAction(s) != None then (if CarriesOut(s, a) then -1.2 else 0.0)
          else if spec.revealsInformation then 1.0
          else if CarriesOut(s, a) || spec.requiresKnownSlot then -2.0 else 0.0)
         - (if spec.terminalOnly && !s.facts.canFinish then 2.0 else 0.0)
         - (if a == Reset && s.facts.progressFraction > 0.0 then 0.8 else 0.0)
  {
  }

  /** Blocked is what ends early; what could end now never is; otherwise, of the rest, what is not required; and if
      nothing is required, what carries out a slot or needs to know it without revealing anything. */
  lemma BlockedInAnyState(specs: Specs, s: WorldState, a: Action)
    requires NameOf(a) in specs
    ensures var spec := specs[NameOf(a)];
      && (spec.terminalOnly ==> (HardBlocked(Hybrid, specs, s, a) <==> !s.facts.canFinish))
      && (!spec.terminalOnly && RequiredAction(s) != None ==>
            (HardBlocked(Hybrid, specs, s, a) <==> RequiredAction(s) != Some(a)))
      && (!spec.terminalOnly && RequiredAction(s) == None ==>
            (HardBlocked(Hybrid, specs, s, a)
             <==> (CarriesOut(s, a) || spec.requiresKnownSlot) && !spec.revealsInformation))
  {
  }

  /** hybrid_veto lifts the block exactly from what reveals something while something is required, provided that it
      does not carry out the slot or the required action is known to be bad. */
  lemma LiftedInAnyState(specs: Specs, s: WorldState, a: Action)
    requires NameOf(a) in specs && HardBlocked(Hybrid, specs, s, a)
    ensures HardBlocked(HybridVeto, specs, s, a)
       <==> !(RequiredAction(s) != None && specs[NameOf(a)].revealsInformation
              && (!CarriesOut(s, a) || (s.facts.setup != None && s.facts.setup.value.compatibleButBadAction)))
  {
  }

  /** The state counts as set up if its setup facts say so in either way, unless a hazard is active. */
  predicate CountsAsSetUp(s: WorldState) {
    && s.facts.setup != None
    && (s.facts.setup.value.postSetupState || s.facts.setup.value.setupState == PostSetupDone
        || s.facts.setup.value.setupState == SafeNoHazard)
    && !(s.facts.family.MazeFacts? && s.facts.family.hazardActive == Some(true))
  }

  /** The veto in any state: it looks at the required action's outcome and at the success of what only ends the
      play, and lets an action pass that is required in a state that is set up and not very bad. */
  lemma VetoInAnyState(specs: Specs, s: WorldState, a: Action, p: Prediction)
    requires NameOf(a) in specs
    ensures var required := RequiredAction(s) == Some(a) && CarriesOut(s, a);
      var passes := required && CountsAsSetUp(s) && OutcomeVeto(p, true) == 0.0;
      ModelVeto(specs, s, a, p)
      == -(if required && !passes then OutcomeVeto(p, false) else 0.0)
         - (if specs[NameOf(a)].terminalOnly && !passes then EndingVeto(p) else 0.0)
  {
  }

  /** Without the prior: while the slot is unknown in a state that is not fully visible, 1 more for what reveals and
      2 less for what needs to know the slot, and anywhere 2 less for what only ends the play, away from the last
      slot. */
  lemma ModelOnlyInAnyState(specs: Specs, s: WorldState, forecast: Forecast, a: Action)
    requires ValidAction(a, specs) && ValidPrediction(forecast(a), |s.vector|)
    ensures var spec, blind := specs[NameOf(a)], !(s.facts.fullyVisible || s.facts.currentSlotKnown);
      Rate(ModelOnly, specs, s, forecast, a)
      == Ok(ModelScore(s, forecast(a))
            + (if blind && spec.revealsInformation then 1.0 else 0.0) - (if blind && spec.requiresKnownSlot then 2.0
              else 0.0)
            - (if spec.terminalOnly && !s.facts.isLastStepIndex then 2.0 else 0.0))
  {
  }

  // ---------- one mode against another ----------

  /** For a model score above the block: hybrid adds it to the prior or blocks the action. hybrid_veto never blocks more
      than hybrid, and takes away at most 3 from what it does not block. */
  lemma ModesCompared(specs: Specs, s: WorldState, forecast: Forecast, a: Action)
    requires ValidAction(a, specs) && ValidPrediction(forecast(a), |s.vector|) && ModelScore(s, forecast(a)) > -999990.0
    ensures var prior, model := Rate(PriorOnly, specs, s, forecast, a).value, ModelScore(s, forecast(a));
      var hybrid, veto := Rate(Hybrid, specs, s, forecast, a).value, Rate(HybridVeto, specs, s, forecast, a).value;
      && (hybrid == prior + model || hybrid == prior - 1000000.0)
      && (hybrid == prior + model ==> prior + model - 3.0 <= veto <= prior + model)
      && (hybrid == prior - 1000000.0 ==> veto == hybrid || prior + model - 3.0 <= veto <= prior + model)
  {
  }

  // ---------- the prior alone ----------

  lemma LockPrior(w: LockWorlds.Lock, predictor: Predictor<LockWorlds.Lock>, a: Action)
    requires w.progress < |w.code| && Typable(w.code) && (a == Inspect || a == Reset || a.Press?)
    requires ValidPrediction(predictor(w, a), 3)
    ensures RatingAt(LOCK, PriorOnly, predictor, w)(a)
         == Ok(if a == Reset then (if w.progress > 0 then -0.8 else 0.0)
               else if !LockWorlds.SlotKnown(w) then (if a == Inspect then 1.0 else -2.0)
               else if a == Inspect then 0.0
               else if a == Press(w.code[w.progress]) then 1.0 else -1.2)
  {
    assert RequiredAction(LockWorlds.View(w))
        == if LockWorlds.SlotKnown(w) then Some(Press(w.code[w.progress])) else None;
    assert 0.0 < LockWorlds.View(w).facts.progressFraction <==> w.progress > 0;
  }

  /** A summarize that cannot end the chain yet is also an early finish. */
  lemma ToolPrior(w: ToolWorlds.ToolChain, predictor: Predictor<ToolWorlds.ToolChain>, t: Tool)
    requires w.stage < |w.sequence| && t in w.sequence && ValidPrediction(predictor(w, Use(t)), 3)
    ensures var early := if t == Summarize && !(ToolWorlds.SlotKnown(w) && w.stage == |w.sequence| - 1) then -2.0
      else 0.0;
      RatingAt(TOOL, PriorOnly, predictor, w)(Use(t))
      == Ok(early + if !ToolWorlds.SlotKnown(w) then (if t == Summarize then -2.0 else 1.0)
                    else if t == ToolWorlds.Expected(w) then 1.0 else -1.2)
  {
    assert ValidAction(Use(t), ToolWorlds.SpecsFor(w.sequence));
    assert RequiredAction(ToolWorlds.View(w))
        == if ToolWorlds.SlotKnown(w) then Some(Use(ToolWorlds.Expected(w))) else None;
  }

  lemma MazePrior(w: MemoryMazes.Maze, predictor: Predictor<MemoryMazes.Maze>, a: Action)
    requires Solvable(w) && (a == Inspect || (a.Move? && a.door in w.doors)) && ValidPrediction(predictor(w, a), 4)
    ensures RatingAt(MAZE, PriorOnly, predictor, w)(a)
         == Ok(if !w.sawHint then (if a == Inspect then 1.0 else -4.0)
               else if a == Inspect then 0.0 else if a.door == w.targetColor then 1.0 else -1.2)
  {
    assert RequiredAction(MemoryMazes.View(w)) == if w.sawHint then Some(Move(w.targetColor)) else None;
  }

  // ---------- what hybrid blocks ----------

  lemma LockHybrid(w: LockWorlds.Lock, predictor: Predictor<LockWorlds.Lock>, a: Action)
    requires w.progress < |w.code| && Typable(w.code) && (a == Inspect || a == Reset || a.Press?)
    requires ValidPrediction(predictor(w, a), 3)
    ensures RatingAt(LOCK, Hybrid, predictor, w)(a)
         == Ok(RatingAt(LOCK, PriorOnly, predictor, w)(a).value
               + if (if LockWorlds.SlotKnown(w) then a == Press(w.code[w.progress]) else !a.Press?)
                 then ModelScore(LockWorlds.View(w), predictor(w, a)) else -1000000.0)
  {
    assert RequiredAction(LockWorlds.View(w))
        == if LockWorlds.SlotKnown(w) then Some(Press(w.code[w.progress])) else None;
  }

  lemma ToolHybrid(w: ToolWorlds.ToolChain, predictor: Predictor<ToolWorlds.ToolChain>, t: Tool)
    requires w.stage < |w.sequence| && t in w.sequence && ValidPrediction(predictor(w, Use(t)), 3)
    ensures RatingAt(TOOL, PriorOnly, predictor, w)(Use(t)).Ok?
    ensures RatingAt(TOOL, Hybrid, predictor, w)(Use(t))
         == Ok(RatingAt(TOOL, PriorOnly, predictor, w)(Use(t)).value
               + if (if t == Summarize then ToolWorlds.SlotKnown(w) && w.stage == |w.sequence| - 1
                     else ToolWorlds.SlotKnown(w) ==> t == ToolWorlds.Expected(w))
                 then ModelScore(ToolWorlds.View(w), predictor(w, Use(t))) else -1000000.0)
  {
    assert ValidAction(Use(t), ToolWorlds.SpecsFor(w.sequence));
    assert RequiredAction(ToolWorlds.View(w))
        == if ToolWorlds.SlotKnown(w) then Some(Use(ToolWorlds.Expected(w))) else None;
  }

  /** model_only before an unknown slot of a chain that is not visible: the looks gain, the summary loses twice. */
  lemma ToolModelOnly(w: ToolWorlds.ToolChain, predictor: Predictor<ToolWorlds.ToolChain>, t: Tool)
    requires w.stage < |w.sequence| && w.visibility != Visible && !w.known[w.stage]
    requires t in w.sequence && ValidPrediction(predictor(w, Use(t)), 3)
    ensures var model := ModelScore(ToolWorlds.View(w), predictor(w, Use(t)));
      RatingAt(TOOL, ModelOnly, predictor, w)(Use(t))
      == Ok(if t == Search || t == Read then model + 1.0
            else if w.stage == |w.sequence| - 1 then model - 2.0 else model - 4.0)
  {
    ToolPlay.ToolsOffered(w);
    assert ValidAction(Use(t), ToolWorlds.SpecsFor(w.sequence));
    ModelOnlyInAnyState(ToolWorlds.SpecsFor(w.sequence), ToolWorlds.View(w), a => predictor(w, a), Use(t));
  }

  // ---------- what the veto makes of the model-needed worlds ----------

  /** Before the setup the veto takes 1.5 from a right action whose reward is predicted below -0.05 or whose progress
      below -0.05; after it only if the reward is below -0.15 and the progress below -0.10. */
  function OutcomeVeto(p: Prediction, setUp: bool): real {
    var progress := if p.progressDelta.Some? then p.progressDelta.value else 0.0;
    if setUp then (if p.reward < -0.15 && progress < -0.10 then 1.5 else 0.0)
    else if p.reward < -0.05 || progress < -0.05 then 1.5 else 0.0
  }

  /** And 1.5 from an action that only ends the play, if success is predicted with less than one half. */
  function EndingVeto(p: Prediction): real {
    if p.successProbability.Some? && p.successProbability.value < 0.5 then 1.5 else 0.0
  }

  lemma TrapVeto(w: LockTrapWorlds.TrapLock, predictor: Predictor<LockTrapWorlds.TrapLock>, a: Action)
    requires w.progress < |w.code| && Typable(w.code) && (a == Inspect || a == Reset || a.Press?)
    requires ValidPrediction(predictor(w, a), 4)
    ensures var model := ModelScore(LockTrapWorlds.View(w), predictor(w, a));
      RatingAt(TRAP, HybridVeto, predictor, w)(a)
      == Ok(if a == Inspect then model
            else if a == Press(w.code[w.progress]) then model + 1.0 - OutcomeVeto(predictor(w, a), !w.trapArmed)
            else if a == Reset then (if w.progress > 0 then -1000000.8 else -1000000.0) else -1000001.2)
  {
    assert RequiredAction(LockTrapWorlds.View(w)) == Some(Press(w.code[w.progress]));
    assert 0.0 < LockTrapWorlds.View(w).facts.progressFraction <==> w.progress > 0;
  }

  /** So in the trapped lock hybrid_veto decides between a look and the next digit, in every state, whatever valid
      predictor above the block it has: it looks exactly if the look scores at least as much as the digit. */
  lemma TrapVetoDecidesExactly(w: LockTrapWorlds.TrapLock, predictor: Predictor<LockTrapWorlds.TrapLock>)
    requires w.progress < |w.code| && Typable(w.code) && AboveBlock(TRAP, predictor, w)
    requires forall a :: a in LockTrapWorlds.CANDIDATES ==> ValidPrediction(predictor(w, a), 4)
    ensures var s, right := LockTrapWorlds.View(w), Press(w.code[w.progress]);
      && Inspect in LockTrapWorlds.CANDIDATES && right in LockTrapWorlds.CANDIDATES
      && Decide(TRAP, HybridVeto, predictor, w)
      == Ok(if ModelScore(s, predictor(w, Inspect))
               >= ModelScore(s, predictor(w, right)) + 1.0 - OutcomeVeto(predictor(w, right), !w.trapArmed)
            then Inspect else right)
  {
    LockTrapPlay.Offered(w);
    var rating, right := RatingAt(TRAP, HybridVeto, predictor, w), Press(w.code[w.progress]);
    assert LockTrapWorlds.CANDIDATES[0] == Inspect;
    forall a | a in LockTrapWorlds.CANDIDATES
      ensures rating(a).Ok?
      ensures a != Inspect && a != right ==> rating(a).value < rating(Inspect).value
    {
      TrapVeto(w, predictor, a);
      TrapVeto(w, predictor, Inspect);
    }
    TrapVeto(w, predictor, Inspect);
    TrapVeto(w, predictor, right);
    if rating(Inspect).value >= rating(right).value {
      FrontWinsTies(rating, LockTrapWorlds.SPECS, LockTrapWorlds.CANDIDATES);
    } else {
      StrictlyBestIsChosen(rating, LockTrapWorlds.SPECS, LockTrapWorlds.CANDIDATES, right);
    }
  }

  lemma HazardVeto(w: MazeHazardWorlds.HazardMaze, predictor: Predictor<MazeHazardWorlds.HazardMaze>, a: Action)
    requires Playable(w) && !w.now.escaped && (a == Inspect || (a.Move? && a.door in w.config.doors))
    requires ValidPrediction(predictor(w, a), 4)
    ensures var p := predictor(w, a);
      var model := ModelScore(MazeHazardWorlds.View(w), p);
      RatingAt(HAZARD, HybridVeto, predictor, w)(a)
      == Ok(if a == Inspect then model + (if w.now.sawHint then 0.0 else 1.0)
            else if !w.now.sawHint then -1000004.0
            else if a.door != w.config.targetColor then model - 1.2 - EndingVeto(p)
            else if w.now.hazardActive then model + 1.0 - OutcomeVeto(p, false) - EndingVeto(p)
            else model + 1.0 - OutcomeVeto(p, true) - (if OutcomeVeto(p, true) > 0.0 then EndingVeto(p) else 0.0))
  {
    assert RequiredAction(MazeHazardWorlds.View(w)) == if w.now.sawHint then Some(Move(w.config.targetColor)) else None;
  }

  lemma GuardedVeto(w: ToolPreconditionWorlds.GuardedChain, predictor: Predictor<ToolPreconditionWorlds.GuardedChain>,
      t: Tool)
    requires w.stage < |w.sequence| && ValidPrediction(predictor(w, Use(t)), 4)
    ensures var p := predictor(w, Use(t));
      var model := ModelScore(ToolPreconditionWorlds.View(w), p);
      var last := w.preconditionReady && w.stage == |w.sequence| - 1;
      RatingAt(GUARDED, HybridVeto, predictor, w)(Use(t))
      == Ok(if t == ToolPreconditionWorlds.Expected(w) then
              (if t == Summarize && !last then -1000001.0
               else if t == Summarize then model + 1.0 - OutcomeVeto(p, true)
                                           - (if OutcomeVeto(p, true) > 0.0 then EndingVeto(p) else 0.0)
               else model + 1.0 - OutcomeVeto(p, w.preconditionReady))
            else if t == Summarize then (if last then model - 1.2 - EndingVeto(p) else -1000003.2)
            else if w.preconditionReady then -1000001.2 else model - 1.2)
  {
    ToolPreconditionPlay.Offered(w);
    assert Use(t) in ToolPreconditionWorlds.CANDIDATES by {
      assert t in {Search, Read, Summarize};
      assert ToolPreconditionWorlds.CANDIDATES[0] == Use(Search) && ToolPreconditionWorlds.CANDIDATES[1] == Use(Read)
          && ToolPreconditionWorlds.CANDIDATES[2] == Use(Summarize);
    }
    assert RequiredAction(ToolPreconditionWorlds.View(w)) == Some(Use(ToolPreconditionWorlds.Expected(w)));
  }

  // ---------- what the blocked actions would have done ----------

  /** hybrid blocks the look that would disarm the trap and pay; a blocked digit or reset gives up all progress. */
  lemma TrapBlockedPays(w: LockTrapWorlds.TrapLock, a: Action)
    requires w.progress < |w.code| && Typable(w.code) && (a == Inspect || a == Reset || a.Press?)
    requires HardBlocked(Hybrid, LockTrapWorlds.SPECS, LockTrapWorlds.View(w), a)
    ensures LockTrapWorlds.Step(w, a).Ok? && a != Press(w.code[w.progress])
    ensures var t := LockTrapWorlds.Step(w, a).value;
      && (a == Inspect ==> t.next.progress == w.progress && !t.next.trapArmed)
      && (a == Inspect ==> (t.reward, t.informationGain) == if w.trapArmed then (0.1, 1.0) else (-0.01, 0.0))
      && (a == Reset ==> t.next.progress == 0 && t.next.trapArmed && t.reward == -0.01 && t.informationGain == 0.0)
      && (a.Press? ==> t.next.progress == 0 && t.next.trapArmed == w.trapArmed
                       && t.reward == -0.2 && t.informationGain == 0.0)
      && !t.success
  {
    assert RequiredAction(LockTrapWorlds.View(w)) == Some(Press(w.code[w.progress]));
  }

  /** In the hazardous maze it blocks the look once the hint is seen, though that may be what clears the hazard, and
      before the hint every door, even the right one where it leads out. */
  lemma HazardBlockedPays(w: MazeHazardWorlds.HazardMaze, a: Action)
    requires Playable(w) && !w.now.escaped && MazeHazardWorlds.Step(w, a).Ok?
    requires HardBlocked(Hybrid, MazeHazardWorlds.SpecsFor(w.build.specDoors), MazeHazardWorlds.View(w), a)
    ensures a == Inspect ==> w.now.sawHint
    ensures a.Move? && a.door == w.config.targetColor ==> !w.now.sawHint
    ensures var t := MazeHazardWorlds.Step(w, a).value;
      && (t.reward, t.informationGain)
         == (if a == Inspect then
               (if w.now.hazardActive then (0.12, 1.0) else if w.config.hazardPresent then (-0.02, 0.0)
                 else (0.02, 0.0))
             else if a != Move(w.config.targetColor) then (-0.25, 0.0)
             else if w.now.hazardActive then (-0.35, 0.0) else (1.0, 0.0))
      && (t.success <==> a == Move(w.config.targetColor) && !w.now.hazardActive)
      && (t.next.now.sawHint <==> a == Inspect || w.now.sawHint)
      && (t.next.now.hazardActive <==> a != Inspect && w.now.hazardActive)
  {
    assert RequiredAction(MazeHazardWorlds.View(w)) == if w.now.sawHint then Some(Move(w.config.targetColor)) else None;
  }

  /** In the guarded chain it blocks every tool but the expected one, the search of the setup among them, and the
      expected summary wherever it does not end the chain. */
  lemma GuardedBlockedPays(w: ToolPreconditionWorlds.GuardedChain, t: Tool)
    requires w.stage < |w.sequence|
    requires HardBlocked(Hybrid, ToolPreconditionWorlds.SPECS, ToolPreconditionWorlds.View(w), Use(t))
    ensures ToolPreconditionWorlds.Step(w, Use(t)).Ok?
    ensures t == ToolPreconditionWorlds.Expected(w)
        ==> t == Summarize && !(w.preconditionReady && w.stage == |w.sequence| - 1)
    ensures var step := ToolPreconditionWorlds.Step(w, Use(t)).value;
      && (t == Search ==> step.next.stage == w.stage && step.next.preconditionReady
                          && (step.reward, step.informationGain)
                             == if w.preconditionReady then (-0.02, 0.0) else (0.12, 1.0))
      && (t != Search ==> step.next.preconditionReady == w.preconditionReady && step.informationGain == 0.0)
      && (t != Search && t == ToolPreconditionWorlds.Expected(w) && w.preconditionReady ==>
            step.next.stage == w.stage + 1 && step.reward == 0.25)
      && (t != Search && !(t == ToolPreconditionWorlds.Expected(w) && w.preconditionReady) ==>
            && step.next.stage == (if w.stage == 0 then 0 else w.stage - 1)
            && step.reward == if t == ToolPreconditionWorlds.Expected(w) then -0.3 else -0.1)
      && !step.success
  {
    ToolPreconditionPlay.Offered(w);
    assert RequiredAction(ToolPreconditionWorlds.View(w)) == Some(Use(ToolPreconditionWorlds.Expected(w)));
  }
}
