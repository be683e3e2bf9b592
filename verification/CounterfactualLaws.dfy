/** What the counterfactual rows say about the worlds. */
module CounterfactualLaws {
  import opened Wrappers
  import opened Schema
  import opened Gate
  import opened Accuracy
  import opened Episodes
  import opened Counterfactuals
  import LockWorlds
  import LockPlay
  import ToolWorlds
  import ToolPlay
  import MemoryMazes
  import MemoryMazePlay
  import LockTrapWorlds
  import LockTrapPlay
  import MazeHazardWorlds
  import MazeHazardPlay
  import ToolPreconditionWorlds
  import ToolPreconditionPlay

  // ---------- progress is accounted for ----------

  /** The row starts from the world's progress, and its change leads to the progress of the state it shows. */
  predicate Accounts<W(!new)>(sim: Sim<W>, w: W, row: Row) {
    Progress(sim.view(w)) + row.progressDelta == Progress(row.next)
  }

  /** Every row of an evaluation accounts for the progress, and shows the state its action leads to. */
  lemma RowsAccount<W(!new)>(sim: Sim<W>, w: W, actions: seq<Action>)
    requires RowsFor(sim, w, actions).Ok?
    ensures var rows := RowsFor(sim, w, actions).value;
      && |rows| == |actions|
      && forall i :: 0 <= i < |rows| ==>
           && Accounts(sim, w, rows[i]) && rows[i].action == actions[i]
           && sim.step(w, actions[i]).Ok? && rows[i].next == sim.view(sim.step(w, actions[i]).value.next)
  {
    RowsAreTheWorlds(sim, w, actions);
    var rows := RowsFor(sim, w, actions).value;
    forall i | 0 <= i < |rows|
      ensures Accounts(sim, w, rows[i]) && rows[i].action == actions[i]
      ensures sim.step(w, actions[i]).Ok? && rows[i].next == sim.view(sim.step(w, actions[i]).value.next)
    {
      assert RowAt(sim, w, actions[i]) == Ok(rows[i]);
    }
  }

  /** The changes of progress that the rows of the actions show, added up along the way. */
  function AddedUp<W(!new)>(sim: Sim<W>, w: W, actions: seq<Action>): real
    requires Follow(sim, w, actions).Ok?
    decreases |actions|
  {
    if actions == [] then 0.0
    else RowAt(sim, w, actions[0]).value.progressDelta + AddedUp(sim, sim.step(w, actions[0]).value.next, actions[1..])
  }

  /** Along every sequence of actions they add up to the progress made from its start to its end. */
  lemma {:induction false} ProgressAddsUp<W(!new)>(sim: Sim<W>, w: W, actions: seq<Action>)
    requires Follow(sim, w, actions).Ok?
    ensures Progress(sim.view(w)) + AddedUp(sim, w, actions) == Progress(sim.view(Follow(sim, w, actions).value))
    decreases |actions|
  {
    if actions != [] {
      ProgressAddsUp(sim, sim.step(w, actions[0]).value.next, actions[1..]);
    }
  }

  // ---------- the expert's row is the best ----------

  /** The action has a row that scores above the row of every other candidate. */
  ghost predicate HasBestRow<W(!new)>(sim: Sim<W>, w: W, best: Action) {
    && best in sim.candidates(w) && RowAt(sim, w, best).Ok?
    && forall a :: a in sim.candidates(w) && a != best ==> RowsBelow(sim, w, a, best)
  }

  predicate RowsBelow<W(!new)>(sim: Sim<W>, w: W, a: Action, best: Action) {
    && RowAt(sim, w, a).Ok? && RowAt(sim, w, best).Ok?
    && RowAt(sim, w, a).value.score < RowAt(sim, w, best).value.score
  }

  /** In a lock whose slot is known, the right digit. */
  lemma LockExpertRow(w: LockWorlds.Lock)
    requires w.progress < |w.code| && Typable(w.code) && LockWorlds.SlotKnown(w)
    ensures HasBestRow(LockPlay.LOCK, w, LockWorlds.Expert(w))
  {
    LockPlay.KeypadOffers(w);
    forall a | a in LockWorlds.Candidates(w) && a != LockWorlds.Expert(w)
      ensures RowsBelow(LockPlay.LOCK, w, a, LockWorlds.Expert(w))
    {
      RatioStep(w.progress, |w.code|);
      assert 0.0 <= Ratio(w.progress, |w.code|);
    }
  }

  /** In a tool chain whose slot is known, the expected tool. */
  lemma ToolExpertRow(w: ToolWorlds.ToolChain)
    requires w.stage < |w.sequence| && ToolWorlds.SlotKnown(w)
    ensures HasBestRow(ToolPlay.TOOL, w, Use(ToolWorlds.Expected(w)))
  {
    ToolPlay.ToolsOffered(w);
    assert ToolWorlds.Expected(w) in w.sequence;
    forall a | a in ToolWorlds.Candidates(w) && a != Use(ToolWorlds.Expected(w))
      ensures RowsBelow(ToolPlay.TOOL, w, a, Use(ToolWorlds.Expected(w)))
    {
      RatioStep(w.stage, |w.sequence|);
      RatioFalls(w.stage, |w.sequence|);
    }
  }

  /** In the memory maze a look, and once the hint is seen the right door. */
  lemma MazeExpertRow(w: MemoryMazes.Maze)
    requires MemoryMazePlay.Solvable(w) && !w.escaped
    ensures HasBestRow(MemoryMazePlay.MAZE, w, MemoryMazes.Expert(w))
  {
    MemoryMazePlay.MazeOffers(w);
  }

  /** In the trapped lock a look while the trap is armed, and then the right digit. */
  lemma TrapExpertRow(w: LockTrapWorlds.TrapLock)
    requires w.progress < |w.code| && Typable(w.code)
    ensures HasBestRow(LockTrapPlay.TRAP, w, LockTrapWorlds.Expert(w))
  {
    LockTrapPlay.Offered(w);
    forall a | a in LockTrapWorlds.CANDIDATES && a != LockTrapWorlds.Expert(w)
      ensures RowsBelow(LockTrapPlay.TRAP, w, a, LockTrapWorlds.Expert(w))
    {
      RatioStep(w.progress, |w.code|);
      assert 0.0 <= Ratio(w.progress, |w.code|);
    }
  }

  /** In the hazardous maze a look while the hazard is active, and then the right door. */
  lemma HazardExpertRow(w: MazeHazardWorlds.HazardMaze)
    requires MazeHazardPlay.Playable(w) && !w.now.escaped
    ensures HasBestRow(MazeHazardPlay.HAZARD, w, MazeHazardWorlds.Expert(w))
  {
    MazeHazardPlay.Offered(w);
  }

  /** In the guarded chain the setup, and then the expected tool. */
  lemma GuardedExpertRow(w: ToolPreconditionWorlds.GuardedChain)
    requires w.stage < |w.sequence|
    ensures HasBestRow(ToolPreconditionPlay.GUARDED, w, ToolPreconditionWorlds.Expert(w))
  {
    ToolPreconditionPlay.Offered(w);
    forall a | a in ToolPreconditionWorlds.CANDIDATES && a != ToolPreconditionWorlds.Expert(w)
      ensures RowsBelow(ToolPreconditionPlay.GUARDED, w, a, ToolPreconditionWorlds.Expert(w))
    {
      ToolPreconditionPlay.GuardedGain(w, a);
      ToolPreconditionPlay.GuardedGain(w, ToolPreconditionWorlds.Expert(w));
    }
  }

  // ---------- the gate's score and the row's ----------

  /** A forecast that is the step itself, with or without saying how the progress changes. */
  predicate IsTruth<W(!new)>(sim: Sim<W>, w: W, a: Action, p: Prediction)
    requires sim.step(w, a).Ok?
  {
    var t := sim.step(w, a).value;
    && p.nextVector == sim.view(t.next).vector && p.reward == t.reward && p.terminal == sim.view(t.next).terminal
    && p.informationGain == Some(t.informationGain) && p.successProbability == None
    && (p.progressDelta == Some(Progress(sim.view(t.next)) - Progress(sim.view(w)))
        || (p.progressDelta == None && VectorGain(sim.view(w), sim.view(t.next))
          == Progress(sim.view(t.next)) - Progress(sim.view(w))))
  }

  /** The gate scores such a forecast exactly like the row, unless the steps run out on a positive reward without
      success: that counts as success, so it scores one half more. */
  lemma TruthScoresLikeRow<W(!new)>(sim: Sim<W>, w: W, a: Action, p: Prediction)
    requires sim.step(w, a).Ok? && ValidPrediction(p, |sim.view(w).vector|) && IsTruth(sim, w, a, p)
    requires sim.step(w, a).value.success ==> p.terminal && p.reward > 0.0
    ensures ModelScore(sim.view(w), p)
         == RowAt(sim, w, a).value.score + if p.terminal && p.reward > 0.0 && !sim.step(w, a).value.success then 0.5
           else 0.0
  {
  }

  /** A given success probability counts half, and is all that counts for success. */
  lemma ProbabilityCountsHalf(s: WorldState, p: Prediction, q: Prediction)
    requires ValidPrediction(p, |s.vector|) && q == p.(successProbability := Some(0.0))
    ensures p.successProbability.Some? ==> ModelScore(s, p) == ModelScore(s, q) + 0.5 * p.successProbability.value
    ensures p.successProbability.None? ==>
      ModelScore(s, p) == ModelScore(s, q) + if p.terminal && p.reward > 0.0 then 0.5 else 0.0
  {
  }
}
