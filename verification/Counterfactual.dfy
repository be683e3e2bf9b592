/** Counterfactual rows: every candidate of a state is tried on a world rebuilt from the state's snapshot. */
module Counterfactuals {
  import opened Wrappers
  import opened Schema
  import opened Accuracy
  import opened Episodes
  import opened Snapshots
  import opened MazeHazardWorlds
  import opened MazeHazardPlay
  import LockWorlds
  import LockPlay
  import ToolWorlds
  import ToolPlay
  import MemoryMazes
  import MemoryMazePlay
  import LockTrapWorlds
  import LockTrapPlay
  import ToolPreconditionWorlds
  import ToolPreconditionPlay

  /** One row of the counterfactual table. */
  datatype Row = Row(action: Action, next: WorldState, reward: real, progressDelta: real, informationGain: real,
                     success: bool, score: real)

  function RowOf(before: WorldState, a: Action, t: Transition<WorldState>): Row {
    var delta := Progress(t.next) - Progress(before);
    Row(a, t.next, t.reward, delta, t.informationGain, t.success,
        t.reward + 2.0 * delta + t.informationGain + 0.5 * Flag(t.success))
  }

  /** The row that the world itself would produce for the action. */
  function RowAt<W(!new)>(sim: Sim<W>, w: W, a: Action): Result<Row, StepError> {
    match sim.step(w, a)
    case Ok(t) => Ok(RowOf(sim.view(w), a, t.To(sim.view(t.next))))
    case Err(error) => Err(error)
  }

  /** The rows for the actions, or the first error. */
  function RowsFor<W(!new)>(sim: Sim<W>, w: W, actions: seq<Action>): Result<seq<Row>, StepError>
    decreases |actions|
  {
    if actions == [] then Ok([]) else
    match RowAt(sim, w, actions[0])
    case Ok(row) => After([row], RowsFor(sim, w, actions[1..]))
    case Err(error) => Err(error)
  }

  function After(rows: seq<Row>, rest: Result<seq<Row>, StepError>): Result<seq<Row>, StepError> {
    if rest.Ok? then Ok(rows + rest.value) else rest
  }

  /** The rows found so far and those still to come make up the whole. */
  predicate Ongoing<W(!new)>(sim: Sim<W>, w: W, actions: seq<Action>, i: int, rows: seq<Row>) {
    0 <= i <= |actions| && RowsFor(sim, w, actions) == After(rows, RowsFor(sim, w, actions[i..]))
  }

  lemma NoRowsYet<W(!new)>(sim: Sim<W>, w: W, actions: seq<Action>)
    ensures Ongoing(sim, w, actions, 0, [])
  {
    assert actions[0..] == actions;
    var all := RowsFor(sim, w, actions);
    assert all.Ok? ==> [] + all.value == all.value;
  }

  lemma AllRows<W(!new)>(sim: Sim<W>, w: W, actions: seq<Action>, rows: seq<Row>)
    requires Ongoing(sim, w, actions, |actions|, rows)
    ensures RowsFor(sim, w, actions) == Ok(rows)
  {
    assert rows + [] == rows;
  }

  lemma OneMoreRow<W(!new)>(sim: Sim<W>, w: W, actions: seq<Action>, i: int, rows: seq<Row>)
    requires Ongoing(sim, w, actions, i, rows) && i < |actions|
    ensures var row := RowAt(sim, w, actions[i]);
      if row.Ok? then Ongoing(sim, w, actions, i + 1, rows + [row.value])
      else RowsFor(sim, w, actions) == Err(row.error)
  {
    assert actions[i..][0] == actions[i] && actions[i..][1..] == actions[i + 1..];
    var row, rest := RowAt(sim, w, actions[i]), RowsFor(sim, w, actions[i + 1..]);
    if row.Ok? && rest.Ok? {
      assert rows + ([row.value] + rest.value) == (rows + [row.value]) + rest.value;
    }
  }

  /** There are rows exactly if the world refuses none of the actions, and then one for each, as the world itself
      would produce it. */
  lemma {:induction false} RowsAreTheWorlds<W(!new)>(sim: Sim<W>, w: W, actions: seq<Action>)
    ensures RowsFor(sim, w, actions).Ok? <==> forall i :: 0 <= i < |actions| ==> RowAt(sim, w, actions[i]).Ok?
    ensures RowsFor(sim, w, actions).Ok? ==>
      var rows := RowsFor(sim, w, actions).value;
      |rows| == |actions| && forall i :: 0 <= i < |actions| ==> RowAt(sim, w, actions[i]) == Ok(rows[i])
    decreases |actions|
  {
    if actions != [] {
      RowsAreTheWorlds(sim, w, actions[1..]);
      assert forall i :: 0 < i < |actions| ==> actions[i] == actions[1..][i - 1];
    }
  }

  function Outcome(before: WorldState, a: Action, stepped: Result<Transition<WorldState>, StepError>)
    : Result<Row, StepError>
  {
    match stepped
    case Ok(t) => Ok(RowOf(before, a, t))
    case Err(error) => Err(error)
  }

  // ---------- LockWorld ----------

  /** The world is rebuilt as it is registered under its name or else from the snapshot, and then restored. Either way
      the row is the original's. */
  method ProbeLock(registered: Option<LockWorlds.Lock>, snapshot: LockWorlds.Lock, a: Action)
    returns (row: Result<Row, StepError>)
    ensures row == RowAt(LockPlay.LOCK, snapshot, a)
  {
    var setup := registered.GetOr(snapshot);
    var world := new LockWorlds.LockWorld(setup.code, setup.maxSteps, setup.visibility);
    world.Restore(snapshot);
    var before := world.state;
    var stepped := world.StepWorld(a);
    row := Outcome(before, a, stepped);
  }

  /** Every candidate is tried on a world of its own, and the original is left as it was. */
  method EvaluateLock(original: LockWorlds.LockWorld, registered: Option<LockWorlds.Lock>)
    returns (rows: Result<seq<Row>, StepError>)
    requires original.Valid()
    ensures original.Valid() && rows == RowsFor(LockPlay.LOCK, original.Model(),
      LockPlay.LOCK.candidates(original.Model()))
  {
    var snapshot := original.Snapshot();
    var candidates, found := LockPlay.LOCK.candidates(snapshot), [];
    NoRowsYet(LockPlay.LOCK, snapshot, candidates);
    for i := 0 to |candidates|
      invariant Ongoing(LockPlay.LOCK, snapshot, candidates, i, found)
    {
      OneMoreRow(LockPlay.LOCK, snapshot, candidates, i, found);
      var row := ProbeLock(registered, snapshot, candidates[i]);
      if row.Err? {
        return Err(row.error);
      }
      found := found + [row.value];
    }
    AllRows(LockPlay.LOCK, snapshot, candidates, found);
    rows := Ok(found);
  }

  // ---------- ToolWorld ----------

  method ProbeTool(registered: Option<ToolWorlds.ToolChain>, snapshot: ToolWorlds.ToolChain, a: Action)
    returns (row: Result<Row, StepError>)
    ensures row == RowAt(ToolPlay.TOOL, snapshot, a)
  {
    var setup := registered.GetOr(snapshot);
    var world := new ToolWorlds.ToolWorld(setup.sequence, setup.maxSteps, setup.visibility);
    world.Restore(snapshot);
    var before := world.state;
    var stepped := world.StepWorld(a);
    row := Outcome(before, a, stepped);
  }

  method EvaluateTool(original: ToolWorlds.ToolWorld, registered: Option<ToolWorlds.ToolChain>)
    returns (rows: Result<seq<Row>, StepError>)
    requires original.Valid()
    ensures original.Valid() && rows == RowsFor(ToolPlay.TOOL, original.Model(),
      ToolPlay.TOOL.candidates(original.Model()))
  {
    var snapshot := original.Snapshot();
    var candidates, found := ToolPlay.TOOL.candidates(snapshot), [];
    NoRowsYet(ToolPlay.TOOL, snapshot, candidates);
    for i := 0 to |candidates|
      invariant Ongoing(ToolPlay.TOOL, snapshot, candidates, i, found)
    {
      OneMoreRow(ToolPlay.TOOL, snapshot, candidates, i, found);
      var row := ProbeTool(registered, snapshot, candidates[i]);
      if row.Err? {
        return Err(row.error);
      }
      found := found + [row.value];
    }
    AllRows(ToolPlay.TOOL, snapshot, candidates, found);
    rows := Ok(found);
  }

  // ---------- MemoryMaze ----------

  method ProbeMaze(registered: Option<MemoryMazes.Maze>, snapshot: MemoryMazes.Maze, a: Action)
    returns (row: Result<Row, StepError>)
    ensures row == RowAt(MemoryMazePlay.MAZE, snapshot, a)
  {
    var setup := registered.GetOr(snapshot);
    var world := new MemoryMazes.MemoryMaze(setup.targetColor, setup.doors, setup.maxSteps, setup.visibility);
    world.Restore(snapshot);
    var before := world.state;
    var stepped := world.StepWorld(a);
    row := Outcome(before, a, stepped);
  }

  method EvaluateMaze(original: MemoryMazes.MemoryMaze, registered: Option<MemoryMazes.Maze>)
    returns (rows: Result<seq<Row>, StepError>)
    requires original.Valid()
    ensures original.Valid() && rows == RowsFor(MemoryMazePlay.MAZE, original.Model(),
      MemoryMazePlay.MAZE.candidates(original.Model()))
  {
    var snapshot := original.Snapshot();
    var candidates, found := MemoryMazePlay.MAZE.candidates(snapshot), [];
    NoRowsYet(MemoryMazePlay.MAZE, snapshot, candidates);
    for i := 0 to |candidates|
      invariant Ongoing(MemoryMazePlay.MAZE, snapshot, candidates, i, found)
    {
      OneMoreRow(MemoryMazePlay.MAZE, snapshot, candidates, i, found);
      var row := ProbeMaze(registered, snapshot, candidates[i]);
      if row.Err? {
        return Err(row.error);
      }
      found := found + [row.value];
    }
    AllRows(MemoryMazePlay.MAZE, snapshot, candidates, found);
    rows := Ok(found);
  }

  // ---------- LockTrapWorld ----------

  method ProbeTrapLock(registered: Option<LockTrapWorlds.TrapLock>, snapshot: LockTrapWorlds.TrapLock, a: Action)
    returns (row: Result<Row, StepError>)
    ensures row == RowAt(LockTrapPlay.TRAP, snapshot, a)
  {
    var setup := registered.GetOr(snapshot);
    var world := new LockTrapWorlds.LockTrapWorld(setup.code, setup.maxSteps, setup.trapArmed);
    world.Restore(snapshot);
    var before := world.state;
    var stepped := world.StepWorld(a);
    row := Outcome(before, a, stepped);
  }

  method EvaluateTrapLock(original: LockTrapWorlds.LockTrapWorld, registered: Option<LockTrapWorlds.TrapLock>)
    returns (rows: Result<seq<Row>, StepError>)
    requires original.Valid()
    ensures original.Valid() && rows == RowsFor(LockTrapPlay.TRAP, original.Model(),
      LockTrapPlay.TRAP.candidates(original.Model()))
  {
    var snapshot := original.Snapshot();
    var candidates, found := LockTrapPlay.TRAP.candidates(snapshot), [];
    NoRowsYet(LockTrapPlay.TRAP, snapshot, candidates);
    for i := 0 to |candidates|
      invariant Ongoing(LockTrapPlay.TRAP, snapshot, candidates, i, found)
    {
      OneMoreRow(LockTrapPlay.TRAP, snapshot, candidates, i, found);
      var row := ProbeTrapLock(registered, snapshot, candidates[i]);
      if row.Err? {
        return Err(row.error);
      }
      found := found + [row.value];
    }
    AllRows(LockTrapPlay.TRAP, snapshot, candidates, found);
    rows := Ok(found);
  }

  // ---------- ToolPreconditionWorld ----------

  method ProbeGuardedChain(registered: Option<ToolPreconditionWorlds.GuardedChain>,
      snapshot: ToolPreconditionWorlds.GuardedChain, a: Action) returns (row: Result<Row, StepError>)
    ensures row == RowAt(ToolPreconditionPlay.GUARDED, snapshot, a)
  {
    var setup := registered.GetOr(snapshot);
    var world := new ToolPreconditionWorlds.ToolPreconditionWorld(setup.sequence, setup.maxSteps,
      setup.preconditionReady);
    world.Restore(snapshot);
    var before := world.state;
    var stepped := world.StepWorld(a);
    row := Outcome(before, a, stepped);
  }

  method EvaluateGuardedChain(original: ToolPreconditionWorlds.ToolPreconditionWorld,
      registered: Option<ToolPreconditionWorlds.GuardedChain>) returns (rows: Result<seq<Row>, StepError>)
    requires original.Valid()
    ensures original.Valid() && rows == RowsFor(ToolPreconditionPlay.GUARDED, original.Model(),
      ToolPreconditionPlay.GUARDED.candidates(original.Model()))
  {
    var snapshot := original.Snapshot();
    var candidates, found := ToolPreconditionPlay.GUARDED.candidates(snapshot), [];
    NoRowsYet(ToolPreconditionPlay.GUARDED, snapshot, candidates);
    for i := 0 to |candidates|
      invariant Ongoing(ToolPreconditionPlay.GUARDED, snapshot, candidates, i, found)
    {
      OneMoreRow(ToolPreconditionPlay.GUARDED, snapshot, candidates, i, found);
      var row := ProbeGuardedChain(registered, snapshot, candidates[i]);
      if row.Err? {
        return Err(row.error);
      }
      found := found + [row.value];
    }
    AllRows(ToolPreconditionPlay.GUARDED, snapshot, candidates, found);
    rows := Ok(found);
  }

  // ---------- MazeHazardWorld ----------

  /** The maze that is rebuilt: for the doors of the registered maze if there is one, else for the snapshot's. */
  function Rebuilt(registered: Option<HazardConfig>, s: HazardSnapshot): HazardMaze
    requires 0 < |s.config.doors| && 0 < s.config.maxSteps && 0 <= s.now.steps
  {
    var config := registered.GetOr(s.config);
    HazardMazeData(s.config, HazardBuild(config.doors, s.now.hazardActive && config.hazardPresent), s.now)
  }

  method ProbeHazard(registered: Option<HazardConfig>, snapshot: HazardSnapshot, a: Action)
    returns (row: Result<Row, StepError>)
    requires 0 < |snapshot.config.doors| && 0 < snapshot.config.maxSteps && 0 <= snapshot.now.steps
    requires registered.Some? ==> 0 < |registered.value.doors| && 0 < registered.value.maxSteps
    ensures row == RowAt(HAZARD, Rebuilt(registered, snapshot), a)
  {
    var world := new MazeHazardWorld(registered.GetOr(snapshot.config), snapshot.now.hazardActive);
    world.Restore(snapshot);
    var before := world.state;
    var stepped := world.StepWorld(a);
    row := Outcome(before, a, stepped);
  }

  /** The rows are those of the rebuilt maze. */
  method EvaluateHazard(original: MazeHazardWorld, registered: Option<HazardConfig>)
    returns (rows: Result<seq<Row>, StepError>)
    requires original.Valid()
    requires registered.Some? ==> 0 < |registered.value.doors| && 0 < registered.value.maxSteps
    ensures original.Valid()
    ensures var w := original.Model();
      rows == RowsFor(HAZARD, Rebuilt(registered, HazardSnapshot(w.config, w.now)), Candidates(w))
  {
    var snapshot := original.Snapshot();
    ghost var w := Rebuilt(registered, snapshot);
    var candidates, found := [Inspect] + MemoryMazes.MoveEach(snapshot.config.doors), [];
    NoRowsYet(HAZARD, w, candidates);
    for i := 0 to |candidates|
      invariant Ongoing(HAZARD, w, candidates, i, found)
    {
      OneMoreRow(HAZARD, w, candidates, i, found);
      var row := ProbeHazard(registered, snapshot, candidates[i]);
      if row.Err? {
        return Err(row.error);
      }
      found := found + [row.value];
    }
    AllRows(HAZARD, w, candidates, found);
    rows := Ok(found);
  }

  // ---------- when there are rows ----------

  /** In an unfinished state no candidate is refused, so every evaluation is complete. */
  lemma LockRowsComplete(w: LockWorlds.Lock)
    requires w.progress < |w.code|
    ensures RowsFor(LockPlay.LOCK, w, LockWorlds.Candidates(w)).Ok?
  {
    forall a | a in LockWorlds.Candidates(w) ensures LockWorlds.Step(w, a).Ok? {
      assert a == Inspect || a in LockWorlds.KEYPAD;
    }
    RowsAreTheWorlds(LockPlay.LOCK, w, LockWorlds.Candidates(w));
  }

  lemma ToolRowsComplete(w: ToolWorlds.ToolChain)
    ensures RowsFor(ToolPlay.TOOL, w, ToolWorlds.Candidates(w)).Ok?
  {
    ToolPlay.ToolsOffered(w);
    RowsAreTheWorlds(ToolPlay.TOOL, w, ToolWorlds.Candidates(w));
  }

  lemma MazeRowsComplete(w: MemoryMazes.Maze)
    ensures RowsFor(MemoryMazePlay.MAZE, w, MemoryMazes.Candidates(w)).Ok?
  {
    RowsAreTheWorlds(MemoryMazePlay.MAZE, w, MemoryMazes.Candidates(w));
  }

  lemma TrapAccepts(w: LockTrapWorlds.TrapLock, a: Action)
    requires w.progress < |w.code| && (a == Inspect || a == Reset || a.Press?)
    ensures RowAt(LockTrapPlay.TRAP, w, a).Ok?
  {
    assert LockTrapWorlds.Step(w, a).Ok?;
  }

  lemma TrapRowsComplete(w: LockTrapWorlds.TrapLock)
    requires w.progress < |w.code|
    ensures RowsFor(LockTrapPlay.TRAP, w, LockTrapWorlds.CANDIDATES).Ok?
  {
    forall a | a in LockTrapWorlds.CANDIDATES ensures RowAt(LockTrapPlay.TRAP, w, a).Ok? {
      TrapAccepts(w, a);
    }
    RowsAreTheWorlds(LockTrapPlay.TRAP, w, LockTrapWorlds.CANDIDATES);
  }

  lemma GuardedRowsComplete(w: ToolPreconditionWorlds.GuardedChain)
    ensures RowsFor(ToolPreconditionPlay.GUARDED, w, ToolPreconditionWorlds.CANDIDATES).Ok?
  {
    RowsAreTheWorlds(ToolPreconditionPlay.GUARDED, w, ToolPreconditionWorlds.CANDIDATES);
  }

  lemma {:induction false} SameRows<W(!new)>(sim: Sim<W>, u: W, w: W, actions: seq<Action>)
    requires forall a :: a in actions ==> RowAt(sim, u, a) == RowAt(sim, w, a)
    ensures RowsFor(sim, u, actions) == RowsFor(sim, w, actions)
    decreases |actions|
  {
    if actions != [] {
      SameRows(sim, u, w, actions[1..]);
    }
  }

  predicate Registered(registered: Option<HazardConfig>, doors: seq<string>) {
    registered.Some? ==> forall d :: d in doors ==> d in registered.value.doors
  }

  /** For the hazardous maze the rows are the original's exactly if the maze registered under its name, if there is
      one, has all its doors. Otherwise the whole evaluation fails, although the original would refuse nothing. */
  lemma HazardRowsExactly(registered: Option<HazardConfig>, w: HazardMaze)
    requires w.build.specDoors == w.config.doors
    ensures var rows := RowsFor(HAZARD, Rebuilt(registered, HazardSnapshot(w.config, w.now)), Candidates(w));
      && RowsFor(HAZARD, w, Candidates(w)).Ok?
      && (rows == RowsFor(HAZARD, w, Candidates(w)) <==> Registered(registered, w.config.doors))
      && (rows == Err(ContractError) <==> !Registered(registered, w.config.doors))
  {
    CandidatesAccepted(w);
    RowsAreTheWorlds(HAZARD, w, Candidates(w));
    var rebuilt := Rebuilt(registered, HazardSnapshot(w.config, w.now));
    if Registered(registered, w.config.doors) {
      RegisteredDoors(rebuilt, w);
    } else {
      UnregisteredDoor(rebuilt, w);
    }
  }

  /** For example a maze with a yellow door, evaluated under the name of a registered maze that has none. */
  lemma HazardRowsCanFail() returns (registered: HazardConfig, w: HazardMaze)
    ensures registered == HazardConfig("green", ["red", "blue", "green"], 7, true, true)
    ensures w == MazeHazardWorlds.Start(registered.(doors := ["green", "yellow"]), true)
    ensures RowsFor(HAZARD, w, Candidates(w)).Ok?
    ensures RowsFor(HAZARD, Rebuilt(Some(registered), HazardSnapshot(w.config, w.now)), Candidates(w))
      == Err(ContractError)
  {
    registered := HazardConfig("green", ["red", "blue", "green"], 7, true, true);
    w := MazeHazardWorlds.Start(registered.(doors := ["green", "yellow"]), true);
    assert w.config.doors[1] == "yellow" && "yellow" !in registered.doors;
    HazardRowsExactly(Some(registered), w);
  }

  lemma RegisteredDoors(rebuilt: HazardMaze, w: HazardMaze)
    requires rebuilt.config == w.config && rebuilt.now == w.now && w.build.specDoors == w.config.doors
    requires forall d :: d in w.config.doors ==> d in rebuilt.build.specDoors
    ensures RowsFor(HAZARD, rebuilt, Candidates(w)) == RowsFor(HAZARD, w, Candidates(w))
  {
    CandidatesAccepted(w);
    forall a | a in Candidates(w) ensures RowAt(HAZARD, rebuilt, a) == RowAt(HAZARD, w, a) {
      SameRow(rebuilt, w, a);
    }
    SameRows(HAZARD, rebuilt, w, Candidates(w));
  }

  lemma UnregisteredDoor(rebuilt: HazardMaze, w: HazardMaze)
    requires exists d :: d in w.config.doors && d !in rebuilt.build.specDoors
    ensures RowsFor(HAZARD, rebuilt, Candidates(w)) == Err(ContractError)
  {
    var i :| 0 <= i < |w.config.doors| && w.config.doors[i] !in rebuilt.build.specDoors;
    var k := i + 1;
    assert Candidates(w)[k] == Move(w.config.doors[i]);
    assert RowAt(HAZARD, rebuilt, Candidates(w)[k]) == Err(ContractError);
    FirstErrorOnly(rebuilt, Candidates(w));
  }

  lemma CandidatesAccepted(w: HazardMaze)
    requires w.build.specDoors == w.config.doors
    ensures forall a :: a in Candidates(w) ==>
      RowAt(HAZARD, w, a).Ok? && (a == Inspect || (a.Move? && a.door in w.config.doors))
  {
  }

  lemma SameRow(u: HazardMaze, w: HazardMaze, a: Action)
    requires u.config == w.config && u.now == w.now && Step(u, a).Ok? && Step(w, a).Ok?
    ensures RowAt(HAZARD, u, a) == RowAt(HAZARD, w, a)
  {
    assert Settled(u, Step(u, a).value) && Settled(w, Step(w, a).value);
  }

  /** The hazardous maze refuses in one way only. */
  lemma {:induction false} FirstErrorOnly(w: HazardMaze, actions: seq<Action>)
    requires exists i :: 0 <= i < |actions| && RowAt(HAZARD, w, actions[i]).Err?
    ensures RowsFor(HAZARD, w, actions) == Err(ContractError)
    decreases |actions|
  {
    assert RowAt(HAZARD, w, actions[0]).Err? ==> RowAt(HAZARD, w, actions[0]) == Err(ContractError);
    if RowAt(HAZARD, w, actions[0]).Ok? {
      var i :| 0 <= i < |actions| && RowAt(HAZARD, w, actions[i]).Err?;
      assert actions[1..][i - 1] == actions[i];
      FirstErrorOnly(w, actions[1..]);
    }
  }
}
