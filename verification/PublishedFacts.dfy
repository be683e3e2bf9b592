/** What the published facts of each world mean for its play, and which actions it refuses. */
module PublishedFacts {
  import opened Wrappers
  import opened Schema
  import opened Gate
  import opened Episodes
  import opened Accuracy
  import LockWorlds
  import LockPlay
  import ToolWorlds
  import ToolPlay
  import MemoryMazes
  import MemoryMazePlay
  import LockTrapWorlds
  import LockTrapPlay
  import MazeHazardWorlds
  import MazeHazardPlay
  import ToolPreconditionWorlds
  import ToolPreconditionPlay

  /** The action reaches the goal at once. */
  predicate Ends<W(!new)>(sim: Sim<W>, w: W, a: Action) {
    sim.step(w, a).Ok? && sim.success(sim.step(w, a).value.next)
  }

  // ---------- the ordinary worlds ----------

  /** can_finish says that the expert's next action opens the lock, is_last_step_index that some action does; the
      slot is known exactly where there is nothing to look at, and there the gate requires the expert's action. */
  lemma LockPublishes(w: LockWorlds.Lock)
    requires w.progress < |w.code| && Typable(w.code)
    ensures var s := LockWorlds.View(w);
      && (s.facts.canFinish <==> Ends(LockPlay.LOCK, w, LockWorlds.Expert(w)))
      && (s.facts.isLastStepIndex <==> exists a :: Ends(LockPlay.LOCK, w, a))
      && (s.facts.currentSlotKnown <==> Inspect !in LockWorlds.Candidates(w))
      && RequiredAction(s) == (if s.facts.currentSlotKnown then Some(LockWorlds.Expert(w)) else None)
      && (s.facts.fullyVisible <==> w.visibility == Visible)
      && s.facts.setup == None
  {
    LockPlay.KeypadOffers(w);
    if w.progress == |w.code| - 1 {
      assert Ends(LockPlay.LOCK, w, Press(w.code[w.progress]));
    }
    assert !LockWorlds.SlotKnown(w) ==> LockWorlds.Candidates(w)[0] == Inspect;
  }

  lemma ToolPublishes(w: ToolWorlds.ToolChain)
    requires w.stage < |w.sequence|
    ensures var s, expected := ToolWorlds.View(w), Use(ToolWorlds.Expected(w));
      && (s.facts.canFinish <==> s.facts.currentSlotKnown && Ends(ToolPlay.TOOL, w, expected))
      && (s.facts.isLastStepIndex <==> |w.sequence| - w.stage == 1)
      && (s.facts.currentSlotKnown <==> RequiredAction(s) == Some(expected))
      && (!s.facts.currentSlotKnown ==> RequiredAction(s) == None)
      && (s.facts.fullyVisible <==> w.visibility == Visible)
      && s.facts.setup == None
  {
    ToolPlay.ToolsOffered(w);
    assert ToolWorlds.Expected(w) in w.sequence;
  }

  lemma MazePublishes(w: MemoryMazes.Maze)
    requires MemoryMazePlay.Solvable(w) && !w.escaped
    ensures var s, ends := MemoryMazes.View(w), Ends(MemoryMazePlay.MAZE, w, MemoryMazes.Expert(w));
      && (s.facts.canFinish <==> ends) && (s.facts.isLastStepIndex <==> ends) && (s.facts.currentSlotKnown <==> ends)
      && RequiredAction(s) == (if ends then Some(MemoryMazes.Expert(w)) else None)
      && (s.facts.fullyVisible <==> w.visibility == Visible || ends)
      && s.facts.progressFraction == Progress(s) && s.facts.setup == None
  {
    MemoryMazePlay.MazeOffers(w);
  }

  // ---------- the model-needed worlds ----------

  /** The setup facts say whether the structurally right action is any good. */
  predicate SetupSays(s: WorldState, good: bool) {
    && s.facts.setup.Some?
    && s.facts.setup.value.postSetupState == good
    && s.facts.setup.value.compatibleButBadAction == !good
  }

  /** The gate always requires the next digit, and the setup facts say whether pressing it brings the end nearer. */
  lemma TrapPublishes(w: LockTrapWorlds.TrapLock)
    requires w.progress < |w.code| && Typable(w.code)
    ensures var s, right := LockTrapWorlds.View(w), Press(w.code[w.progress]);
      && RequiredAction(s) == Some(right) && s.facts.currentSlotKnown && s.facts.fullyVisible
      && (s.facts.canFinish <==> Ends(LockTrapPlay.TRAP, w, LockTrapWorlds.Expert(w)))
      && (s.facts.isLastStepIndex <==> |w.code| - w.progress == 1)
      && SetupSays(s, Nearer(LockTrapPlay.TRAP, w, right))
      && s.facts.setup.value.setupState == if Nearer(LockTrapPlay.TRAP, w, right) then PostSetupDone else PreSetup
  {
    LockTrapPlay.Offered(w);
  }

  /** An open trapped lock publishes no current slot, so nothing is required any more. */
  lemma OpenTrapPublishes(w: LockTrapWorlds.TrapLock)
    requires w.progress == |w.code|
    ensures !LockTrapWorlds.View(w).facts.currentSlotKnown && !LockTrapWorlds.View(w).facts.canFinish
    ensures !LockTrapWorlds.View(w).facts.isLastStepIndex && RequiredAction(LockTrapWorlds.View(w)) == None
  {
  }

  /** The gate requires the right door as soon as the hint is seen, and the setup facts say whether it leads out. */
  lemma HazardPublishes(w: MazeHazardWorlds.HazardMaze)
    requires MazeHazardPlay.Playable(w) && !w.now.escaped
    ensures var s, right := MazeHazardWorlds.View(w), Move(w.config.targetColor);
      && RequiredAction(s) == (if w.now.sawHint then Some(right) else None)
      && s.facts.currentSlotKnown && s.facts.fullyVisible && s.facts.isLastStepIndex
      && (s.facts.canFinish <==> RequiredAction(s).Some?)
      && SetupSays(s, Ends(MazeHazardPlay.HAZARD, w, right))
      && (s.facts.setup.value.setupState == SafeNoHazard <==> !w.config.hazardPresent)
      && (s.facts.setup.value.setupState == PreSetup <==> !Ends(MazeHazardPlay.HAZARD, w, right))
  {
    MazeHazardPlay.Offered(w);
  }

  lemma EscapedHazardPublishes(w: MazeHazardWorlds.HazardMaze)
    requires w.now.escaped
    ensures !MazeHazardWorlds.View(w).facts.canFinish && MazeHazardWorlds.View(w).facts.progressFraction == 1.0
  {
  }

  /** The gate always requires the expected tool, and the setup facts say whether it brings the end nearer. */
  lemma GuardedPublishes(w: ToolPreconditionWorlds.GuardedChain)
    requires w.stage < |w.sequence|
    ensures var s, expected := ToolPreconditionWorlds.View(w), Use(ToolPreconditionWorlds.Expected(w));
      && RequiredAction(s) == Some(expected) && s.facts.currentSlotKnown && s.facts.fullyVisible
      && (s.facts.canFinish <==> Ends(ToolPreconditionPlay.GUARDED, w, ToolPreconditionWorlds.Expert(w)))
      && (s.facts.isLastStepIndex <==> |w.sequence| - w.stage == 1)
      && SetupSays(s, Nearer(ToolPreconditionPlay.GUARDED, w, expected))
      && s.facts.setup.value.setupState == if Nearer(ToolPreconditionPlay.GUARDED, w, expected) then PostSetupDone
           else PreSetup
  {
    ToolPreconditionPlay.Offered(w);
  }

  lemma DoneGuardedPublishes(w: ToolPreconditionWorlds.GuardedChain)
    requires w.stage >= |w.sequence|
    ensures RequiredAction(ToolPreconditionWorlds.View(w)) == Some(Use(Summarize))
    ensures !ToolPreconditionWorlds.View(w).facts.canFinish && !ToolPreconditionWorlds.View(w).facts.isLastStepIndex
  {
  }

  // ---------- counting ----------

  /** The published counters are the world's, in all worlds. */
  lemma CountersArePublished(l: LockWorlds.Lock, t: ToolWorlds.ToolChain, m: MemoryMazes.Maze,
      k: LockTrapWorlds.TrapLock,
                             h: MazeHazardWorlds.HazardMaze, g: ToolPreconditionWorlds.GuardedChain)
    ensures Counts(LockPlay.LOCK, l) && Counts(ToolPlay.TOOL, t) && Counts(MemoryMazePlay.MAZE, m)
    ensures Counts(LockTrapPlay.TRAP, k) && Counts(MazeHazardPlay.HAZARD, h) && Counts(ToolPreconditionPlay.GUARDED, g)
    ensures LockWorlds.View(l).facts.currentIndex == l.progress && ToolWorlds.View(t).facts.currentIndex == t.stage
    ensures LockTrapWorlds.View(k).facts.currentIndex == k.progress
    ensures ToolPreconditionWorlds.View(g).facts.currentIndex == g.stage
  {
  }

  /** The published fraction is the progress that the counterfactual rows measure, except that the hazardous maze counts
      its hint as seen from the start. The mazes have one position only. */
  lemma FractionIsProgress(l: LockWorlds.Lock, t: ToolWorlds.ToolChain, m: MemoryMazes.Maze, k: LockTrapWorlds.TrapLock,
                           h: MazeHazardWorlds.HazardMaze, g: ToolPreconditionWorlds.GuardedChain)
    ensures Matches(LockPlay.LOCK, l) && Matches(ToolPlay.TOOL, t) && Matches(MemoryMazePlay.MAZE, m)
    ensures Matches(LockTrapPlay.TRAP, k) && Matches(ToolPreconditionPlay.GUARDED, g)
    ensures var hinted := h.(now := h.now.(sawHint := true));
      MazeHazardWorlds.View(h).facts.progressFraction == Progress(MazeHazardWorlds.View(hinted))
    ensures MemoryMazes.View(m).facts.currentIndex == 0 && MazeHazardWorlds.View(h).facts.currentIndex == 0
  {
  }

  predicate Matches<W(!new)>(sim: Sim<W>, w: W) {
    sim.view(w).facts.progressFraction == Progress(sim.view(w))
  }

  predicate Counts<W(!new)>(sim: Sim<W>, w: W) {
    sim.view(w).facts.steps == sim.steps(w) && sim.view(w).facts.maxSteps == sim.maxSteps(w)
  }

  // ---------- refusals ----------

  /** The locks refuse what is no action of theirs, and a press once they are open. */
  lemma LockRefuses(w: LockWorlds.Lock, a: Action)
    ensures LockWorlds.Step(w, a) == Err(ContractError) <==> a.Use? || a.Move?
    ensures LockWorlds.Step(w, a) == Err(IndexError) <==> a.Press? && w.progress == |w.code|
  {
  }

  lemma TrapRefuses(w: LockTrapWorlds.TrapLock, a: Action)
    ensures LockTrapWorlds.Step(w, a) == Err(ContractError) <==> a.Use? || a.Move?
    ensures LockTrapWorlds.Step(w, a) == Err(IndexError) <==> a.Press? && w.progress == |w.code|
  {
  }

  /** The tool chains refuse what is no tool of theirs. */
  lemma ToolRefuses(w: ToolWorlds.ToolChain, a: Action)
    ensures ToolWorlds.Step(w, a).Err? <==> !(a.Use? && a.tool in w.sequence)
    ensures ToolWorlds.Step(w, a).Err? ==> ToolWorlds.Step(w, a) == Err(ContractError)
  {
  }

  lemma GuardedRefuses(w: ToolPreconditionWorlds.GuardedChain, a: Action)
    ensures ToolPreconditionWorlds.Step(w, a).Err? <==> !a.Use?
    ensures ToolPreconditionWorlds.Step(w, a).Err? ==> ToolPreconditionWorlds.Step(w, a) == Err(ContractError)
  {
    if a.Use? {
      match a.tool {
        case Search =>
        case Read =>
        case Summarize =>
      }
    }
  }

  /** The mazes refuse what is neither a look nor a door they were built with. */
  lemma MazeRefuses(w: MemoryMazes.Maze, a: Action)
    ensures MemoryMazes.Step(w, a).Err? <==> a != Inspect && !(a.Move? && a.door in w.doors)
    ensures MemoryMazes.Step(w, a).Err? ==> MemoryMazes.Step(w, a) == Err(ContractError)
  {
  }

  lemma HazardRefuses(w: MazeHazardWorlds.HazardMaze, a: Action)
    ensures MazeHazardWorlds.Step(w, a).Err? <==> a != Inspect && !(a.Move? && a.door in w.build.specDoors)
    ensures MazeHazardWorlds.Step(w, a).Err? ==> MazeHazardWorlds.Step(w, a) == Err(ContractError)
  {
  }
}
