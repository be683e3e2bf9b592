/** What is learnt along a sequence of actions: nothing is learnt twice, forgotten or shown wrongly. */
module Knowledge {
  import opened Wrappers
  import opened Schema
  import opened Episodes
  import LockWorlds
  import LockPlay
  import ToolWorlds
  import ToolPlay
  import MemoryMazes
  import MemoryMazePlay
  import LockTrapWorlds
  import MazeHazardWorlds
  import ToolPreconditionWorlds

  // ---------- information gained ----------

  /** The information gain that the actions report, added up along the way. */
  function Gained<W(!new)>(sim: Sim<W>, w: W, actions: seq<Action>): real
    requires Follow(sim, w, actions).Ok?
    decreases |actions|
  {
    if actions == [] then 0.0
    else sim.step(w, actions[0]).value.informationGain + Gained(sim, sim.step(w, actions[0]).value.next, actions[1..])
  }

  /** Each accepted action reports what it takes away from what is left to learn. */
  ghost predicate Learns<W(!new)>(sim: Sim<W>, left: W -> int, w: W) {
    forall a :: sim.step(w, a).Ok? ==>
      sim.step(w, a).value.informationGain == (left(w) - left(sim.step(w, a).value.next)) as real
  }

  lemma {:induction false} GainsAddUp<W(!new)>(sim: Sim<W>, left: W -> int, w: W, actions: seq<Action>)
    requires Follow(sim, w, actions).Ok? && forall v :: Learns(sim, left, v)
    ensures Gained(sim, w, actions) == (left(w) - left(Follow(sim, w, actions).value)) as real
    decreases |actions|
  {
    if actions != [] {
      assert Learns(sim, left, w);
      GainsAddUp(sim, left, sim.step(w, actions[0]).value.next, actions[1..]);
    }
  }

  /** How many slots are still hidden. */
  function Hidden(known: seq<bool>): (n: nat)
    ensures n == 0 <==> forall i :: 0 <= i < |known| ==> known[i]
  {
    if known == [] then 0 else (if known[0] then 0 else 1) + Hidden(known[1..])
  }

  lemma {:induction false} LookUncovers(known: seq<bool>, slot: nat)
    requires slot < |known|
    ensures Hidden(known[slot := true]) == Hidden(known) - if known[slot] then 0 else 1
  {
    if slot == 0 {
      assert known[slot := true][1..] == known[1..];
    } else {
      assert known[slot := true][1..] == known[1..][slot - 1 := true];
      LookUncovers(known[1..], slot - 1);
    }
  }

  /** In a lock the information gained is the number of slots uncovered, along every sequence of actions. */
  lemma LockGain(w: LockWorlds.Lock, actions: seq<Action>)
    requires Follow(LockPlay.LOCK, w, actions).Ok?
    ensures Gained(LockPlay.LOCK, w, actions)
         == (Hidden(w.known) - Hidden(Follow(LockPlay.LOCK, w, actions).value.known)) as real
  {
    var left := (v: LockWorlds.Lock) => Hidden(v.known) as int;
    forall v: LockWorlds.Lock
      ensures Learns(LockPlay.LOCK, left, v)
    {
      LookUncovers(v.known, if v.progress < |v.code| then v.progress else |v.code| - 1);
    }
    GainsAddUp(LockPlay.LOCK, left, w, actions);
  }

  function HiddenTools(v: ToolWorlds.ToolChain): int {
    Hidden(v.known)
  }

  lemma ToolLearns(v: ToolWorlds.ToolChain)
    ensures Learns(ToolPlay.TOOL, HiddenTools, v)
  {
    if v.stage < |v.known| {
      LookUncovers(v.known, v.stage);
    }
  }

  lemma ToolGain(w: ToolWorlds.ToolChain, actions: seq<Action>)
    requires Follow(ToolPlay.TOOL, w, actions).Ok?
    ensures Gained(ToolPlay.TOOL, w, actions)
         == (Hidden(w.known) - Hidden(Follow(ToolPlay.TOOL, w, actions).value.known)) as real
  {
    forall v: ToolWorlds.ToolChain
      ensures Learns(ToolPlay.TOOL, HiddenTools, v)
    {
      ToolLearns(v);
    }
    GainsAddUp(ToolPlay.TOOL, HiddenTools, w, actions);
  }

  /** In the memory maze it is one for the hint, once. */
  lemma MazeGain(w: MemoryMazes.Maze, actions: seq<Action>)
    requires Follow(MemoryMazePlay.MAZE, w, actions).Ok?
    ensures Gained(MemoryMazePlay.MAZE, w, actions)
         == if Follow(MemoryMazePlay.MAZE, w, actions).value.sawHint && !w.sawHint then 1.0 else 0.0
  {
    var left := (v: MemoryMazes.Maze) => if v.sawHint then 0 else 1;
    forall v: MemoryMazes.Maze
      ensures Learns(MemoryMazePlay.MAZE, left, v)
    {
    }
    GainsAddUp(MemoryMazePlay.MAZE, left, w, actions);
    HintStays(w, actions);
  }

  lemma {:induction false} HintStays(w: MemoryMazes.Maze, actions: seq<Action>)
    requires Follow(MemoryMazePlay.MAZE, w, actions).Ok?
    ensures w.sawHint ==> Follow(MemoryMazePlay.MAZE, w, actions).value.sawHint
    decreases |actions|
  {
    if actions != [] {
      assert MemoryMazePlay.MAZE.step(w, actions[0]) == MemoryMazes.Step(w, actions[0]);
      HintStays(MemoryMazes.Step(w, actions[0]).value.next, actions[1..]);
    }
  }

  // ---------- what is remembered ----------

  predicate NoLook(actions: seq<Action>) {
    forall i :: 0 <= i < |actions| ==> actions[i] != Inspect
  }

  /** The slot that a look shows: the current one, or the last one of an open lock. */
  function Looked(w: LockWorlds.Lock): nat {
    if w.progress < |w.code| then w.progress else |w.code| - 1
  }

  /** A lock remembers the last look, and rightly, however play goes on. The slot stays uncovered. */
  lemma {:induction false} LastLookIsRemembered(w: LockWorlds.Lock, rest: seq<Action>)
    requires Follow(LockPlay.LOCK, w, [Inspect] + rest).Ok? && NoLook(rest)
    ensures var end := Follow(LockPlay.LOCK, w, [Inspect] + rest).value;
      && end.lastObservation == LockWorlds.Inspected(Looked(w), w.code[Looked(w)])
      && end.known == w.known[Looked(w) := true]
  {
    assert ([Inspect] + rest)[0] == Inspect && ([Inspect] + rest)[1..] == rest;
    assert LockPlay.LOCK.step(w, Inspect) == LockWorlds.Step(w, Inspect);
    WithoutLookNothingIsSeen(LockWorlds.Step(w, Inspect).value.next, rest);
  }

  lemma {:induction false} WithoutLookNothingIsSeen(w: LockWorlds.Lock, actions: seq<Action>)
    requires Follow(LockPlay.LOCK, w, actions).Ok? && NoLook(actions)
    ensures var end := Follow(LockPlay.LOCK, w, actions).value;
      end.lastObservation == w.lastObservation && end.known == w.known
    decreases |actions|
  {
    if actions != [] {
      assert LockPlay.LOCK.step(w, actions[0]) == LockWorlds.Step(w, actions[0]) && actions[0] != Inspect;
      WithoutLookNothingIsSeen(LockWorlds.Step(w, actions[0]).value.next, actions[1..]);
    }
  }

  /** A tool chain remembers which tool uncovered which slot, and what the slot asks for; every other use uncovers
      nothing. */
  lemma SearchIsRemembered(w: ToolWorlds.ToolChain, t: Tool)
    requires ToolWorlds.Step(w, Use(t)).Ok?
    ensures var next := ToolWorlds.Step(w, Use(t)).value.next;
      if w.stage < |w.sequence| && !w.known[w.stage] && (t == Search || t == Read) then
        && next.lastObservation == ToolWorlds.Observed(t, w.stage, w.sequence[w.stage])
        && next.known == w.known[w.stage := true] && next.stage == w.stage
      else next.lastObservation == w.lastObservation && next.known == w.known
  {
  }

  // ---------- what is shown ----------

  /** At every index either the entry itself is shown or, where it is not known, the cover. */
  predicate Shows<T(==)>(shown: seq<T>, all: seq<T>, known: seq<bool>, cover: T) {
    && |shown| == |all| == |known|
    && forall i :: 0 <= i < |all| ==> if known[i] then shown[i] == all[i] else shown[i] == cover
  }

  function Offers(tools: seq<Tool>): (r: seq<Option<Tool>>)
    ensures |r| == |tools| && forall i :: 0 <= i < |tools| ==> r[i] == Some(tools[i])
  {
    if tools == [] then [] else [Some(tools[0])] + Offers(tools[1..])
  }

  /** The worlds publish what is known and cover the rest; the model-needed ones cover nothing but the maze's hint. */
  lemma KnownIsShown(l: LockWorlds.Lock, t: ToolWorlds.ToolChain, m: MemoryMazes.Maze, k: LockTrapWorlds.TrapLock,
                     h: MazeHazardWorlds.HazardMaze, g: ToolPreconditionWorlds.GuardedChain)
    ensures Shows(LockWorlds.View(l).facts.family.visibleCode, l.code, l.known, 0)
    ensures Shows(ToolWorlds.View(t).facts.family.visibleSequence, Offers(t.sequence), t.known, None)
    ensures ToolWorlds.View(t).facts.family.requiredTool
         == if t.stage < |t.known| && t.known[t.stage] then Some(t.sequence[t.stage]) else None
    ensures MemoryMazes.View(m).facts.family.visibleTargetColor == if m.sawHint then m.targetColor else ""
    ensures LockTrapWorlds.View(k).facts.family.visibleCode == k.code
    ensures MazeHazardWorlds.View(h).facts.family.visibleTargetColor
         == if h.now.sawHint then h.config.targetColor else ""
    ensures ToolPreconditionWorlds.View(g).facts.family.visibleSequence == Offers(g.sequence)
  {
  }
}
