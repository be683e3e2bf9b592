/** Snapshot and restore: a rebuilt world goes on exactly as the original would. */
module Snapshots {
  import opened Wrappers
  import opened Schema
  import opened Episodes
  import opened MazeHazardWorlds
  import opened MazeHazardPlay
  import LockWorlds
  import LockPlay
  import ToolWorlds
  import ToolPlay
  import MemoryMazes
  import MemoryMazePlay
  import LockTrapWorlds
  import LockTrapPlay
  import ToolPreconditionWorlds
  import ToolPreconditionPlay

  /** What an observer of a world sees of one step. */
  datatype Observation =
    | Observation(state: WorldState, reward: real, success: bool, informationGain: real)
    | Refused(error: StepError)

  /** What is seen along a list of actions, up to the first refused one. */
  function Observe<W(!new)>(sim: Sim<W>, w: W, actions: seq<Action>): seq<Observation>
    decreases |actions|
  {
    if actions == [] then [] else
    match sim.step(w, actions[0])
    case Ok(t) =>
      [Observation(sim.view(t.next), t.reward, t.success, t.informationGain)] + Observe(sim, t.next, actions[1..])
    case Err(error) => [Refused(error)]
  }

  /** The world a restore makes of any world of the class. */
  function RestoreInto(base: HazardMaze, w: HazardMaze): HazardMaze {
    HazardMazeData(w.config, base.build, w.now)
  }

  predicate SameDoors(a: seq<string>, b: seq<string>) {
    (forall d :: d in a ==> d in b) && (forall d :: d in b ==> d in a)
  }

  /** The restored maze is observed exactly as the original, along every list of actions, if and only if
      the world restored into was built for the same doors: restore does not rebuild the action specs. */
  lemma HazardRestoreIsFaithfulExactly(base: HazardMaze, w: HazardMaze)
    ensures (forall actions :: Observe(HAZARD, RestoreInto(base, w), actions) == Observe(HAZARD, w, actions))
       <==> SameDoors(base.build.specDoors, w.build.specDoors)
  {
    if SameDoors(base.build.specDoors, w.build.specDoors) {
      forall actions ensures Observe(HAZARD, RestoreInto(base, w), actions) == Observe(HAZARD, w, actions) {
        HazardBisimulation(RestoreInto(base, w), w, actions);
      }
    } else {
      var d :| (d in base.build.specDoors && d !in w.build.specDoors)
        || (d !in base.build.specDoors && d in w.build.specDoors);
      var actions := DoorShowsDifference(RestoreInto(base, w), w, d);
    }
  }

  lemma DoorShowsDifference(u: HazardMaze, w: HazardMaze, d: string) returns (actions: seq<Action>)
    requires (d in u.build.specDoors) != (d in w.build.specDoors)
    ensures Observe(HAZARD, u, actions) != Observe(HAZARD, w, actions)
  {
    actions := [Move(d)];
    assert Step(u, actions[0]).Err? != Step(w, actions[0]).Err?;
    assert Observe(HAZARD, u, actions)[0] != Observe(HAZARD, w, actions)[0];
  }

  /** Worlds that differ only in what a snapshot omits are observed alike. */
  lemma {:induction false} HazardBisimulation(u: HazardMaze, w: HazardMaze, actions: seq<Action>)
    requires u.config == w.config && u.now == w.now && SameDoors(u.build.specDoors, w.build.specDoors)
    ensures Observe(HAZARD, u, actions) == Observe(HAZARD, w, actions)
    decreases |actions|
  {
    if actions != [] {
      HazardStepsAlike(u, w, actions[0]);
      if Step(u, actions[0]).Ok? {
        HazardBisimulation(Step(u, actions[0]).value.next, Step(w, actions[0]).value.next, actions[1..]);
      }
    }
  }

  lemma HazardStepsAlike(u: HazardMaze, w: HazardMaze, a: Action)
    requires u.config == w.config && u.now == w.now && SameDoors(u.build.specDoors, w.build.specDoors)
    ensures Step(u, a).Ok? == Step(w, a).Ok? && (Step(u, a).Err? ==> Step(u, a) == Step(w, a))
    ensures Step(u, a).Ok? ==>
      var t, v := Step(u, a).value, Step(w, a).value;
      && t.next.config == v.next.config && t.next.now == v.next.now && t.next.build == u.build
      && v.next.build == w.build
      && t.reward == v.reward && t.success == v.success && t.informationGain == v.informationGain
  {
    if Step(u, a).Ok? {
      assert Settled(u, Step(u, a).value) && Settled(w, Step(w, a).value);
    }
  }

  function Seen(t: Transition<WorldState>): Observation {
    Observation(t.next, t.reward, t.success, t.informationGain)
  }

  // ---------- LockWorld ----------

  method WatchLock(world: LockWorlds.LockWorld, actions: seq<Action>) returns (seen: seq<Observation>)
    requires world.Valid()
    modifies world
    ensures world.Valid() && seen == Observe(LockPlay.LOCK, old(world.Model()), actions)
    decreases |actions|
  {
    if actions == [] {
      return [];
    }
    var stepped := world.StepWorld(actions[0]);
    if stepped.Err? {
      return [Refused(stepped.error)];
    }
    var rest := WatchLock(world, actions[1..]);
    seen := [Seen(stepped.value)] + rest;
  }

  method ReplayLock(original: LockWorlds.LockWorld, world: LockWorlds.LockWorld, actions: seq<Action>)
    returns (seen: seq<Observation>)
    requires original.Valid() && original != world
    modifies world
    ensures original.Valid() && seen == Observe(LockPlay.LOCK, original.Model(), actions)
  {
    var snapshot := original.Snapshot();
    world.Restore(snapshot);
    seen := WatchLock(world, actions);
  }

  // ---------- ToolWorld ----------

  method WatchTool(world: ToolWorlds.ToolWorld, actions: seq<Action>) returns (seen: seq<Observation>)
    requires world.Valid()
    modifies world
    ensures world.Valid() && seen == Observe(ToolPlay.TOOL, old(world.Model()), actions)
    decreases |actions|
  {
    if actions == [] {
      return [];
    }
    var stepped := world.StepWorld(actions[0]);
    if stepped.Err? {
      return [Refused(stepped.error)];
    }
    var rest := WatchTool(world, actions[1..]);
    seen := [Seen(stepped.value)] + rest;
  }

  method ReplayTool(original: ToolWorlds.ToolWorld, world: ToolWorlds.ToolWorld, actions: seq<Action>)
    returns (seen: seq<Observation>)
    requires original.Valid() && original != world
    modifies world
    ensures original.Valid() && seen == Observe(ToolPlay.TOOL, original.Model(), actions)
  {
    var snapshot := original.Snapshot();
    world.Restore(snapshot);
    seen := WatchTool(world, actions);
  }

  // ---------- MemoryMaze ----------

  method WatchMaze(world: MemoryMazes.MemoryMaze, actions: seq<Action>) returns (seen: seq<Observation>)
    requires world.Valid()
    modifies world
    ensures world.Valid() && seen == Observe(MemoryMazePlay.MAZE, old(world.Model()), actions)
    decreases |actions|
  {
    if actions == [] {
      return [];
    }
    var stepped := world.StepWorld(actions[0]);
    if stepped.Err? {
      return [Refused(stepped.error)];
    }
    var rest := WatchMaze(world, actions[1..]);
    seen := [Seen(stepped.value)] + rest;
  }

  method ReplayMaze(original: MemoryMazes.MemoryMaze, world: MemoryMazes.MemoryMaze, actions: seq<Action>)
    returns (seen: seq<Observation>)
    requires original.Valid() && original != world
    modifies world
    ensures original.Valid() && seen == Observe(MemoryMazePlay.MAZE, original.Model(), actions)
  {
    var snapshot := original.Snapshot();
    world.Restore(snapshot);
    seen := WatchMaze(world, actions);
  }

  // ---------- LockTrapWorld ----------

  method WatchTrapLock(world: LockTrapWorlds.LockTrapWorld, actions: seq<Action>) returns (seen: seq<Observation>)
    requires world.Valid()
    modifies world
    ensures world.Valid() && seen == Observe(LockTrapPlay.TRAP, old(world.Model()), actions)
    decreases |actions|
  {
    if actions == [] {
      return [];
    }
    var stepped := world.StepWorld(actions[0]);
    if stepped.Err? {
      return [Refused(stepped.error)];
    }
    var rest := WatchTrapLock(world, actions[1..]);
    seen := [Seen(stepped.value)] + rest;
  }

  method ReplayTrapLock(original: LockTrapWorlds.LockTrapWorld, world: LockTrapWorlds.LockTrapWorld,
      actions: seq<Action>) returns (seen: seq<Observation>)
    requires original.Valid() && original != world
    modifies world
    ensures original.Valid() && seen == Observe(LockTrapPlay.TRAP, original.Model(), actions)
  {
    var snapshot := original.Snapshot();
    world.Restore(snapshot);
    seen := WatchTrapLock(world, actions);
  }

  // ---------- ToolPreconditionWorld ----------

  method WatchGuardedChain(world: ToolPreconditionWorlds.ToolPreconditionWorld, actions: seq<Action>)
    returns (seen: seq<Observation>)
    requires world.Valid()
    modifies world
    ensures world.Valid() && seen == Observe(ToolPreconditionPlay.GUARDED, old(world.Model()), actions)
    decreases |actions|
  {
    if actions == [] {
      return [];
    }
    var stepped := world.StepWorld(actions[0]);
    if stepped.Err? {
      return [Refused(stepped.error)];
    }
    var rest := WatchGuardedChain(world, actions[1..]);
    seen := [Seen(stepped.value)] + rest;
  }

  method ReplayGuardedChain(original: ToolPreconditionWorlds.ToolPreconditionWorld,
      world: ToolPreconditionWorlds.ToolPreconditionWorld, actions: seq<Action>) returns (seen: seq<Observation>)
    requires original.Valid() && original != world
    modifies world
    ensures original.Valid() && seen == Observe(ToolPreconditionPlay.GUARDED, original.Model(), actions)
  {
    var snapshot := original.Snapshot();
    world.Restore(snapshot);
    seen := WatchGuardedChain(world, actions);
  }

  // ---------- MazeHazardWorld ----------

  method WatchHazard(world: MazeHazardWorld, actions: seq<Action>) returns (seen: seq<Observation>)
    requires world.Valid()
    modifies world
    ensures world.Valid() && seen == Observe(HAZARD, old(world.Model()), actions)
    decreases |actions|
  {
    if actions == [] {
      return [];
    }
    var stepped := world.StepWorld(actions[0]);
    if stepped.Err? {
      return [Refused(stepped.error)];
    }
    var rest := WatchHazard(world, actions[1..]);
    seen := [Seen(stepped.value)] + rest;
  }

  /** Here the restored world must have been built for the same doors. */
  method ReplayHazard(original: MazeHazardWorld, world: MazeHazardWorld, actions: seq<Action>)
    returns (seen: seq<Observation>)
    requires original.Valid() && world.Valid() && original != world
    modifies world
    ensures original.Valid() && seen == Observe(HAZARD, RestoreInto(old(world.Model()), original.Model()), actions)
    ensures SameDoors(world.build.specDoors, original.build.specDoors)
      ==> seen == Observe(HAZARD, original.Model(), actions)
  {
    var snapshot := original.Snapshot();
    ghost var base := world.Model();
    world.Restore(snapshot);
    seen := WatchHazard(world, actions);
    if SameDoors(base.build.specDoors, original.Model().build.specDoors) {
      HazardBisimulation(RestoreInto(base, original.Model()), original.Model(), actions);
    }
  }
}
