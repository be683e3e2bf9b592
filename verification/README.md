# NeuroKernel seed: a verified model

This project models the decision and work machinery of the NeuroKernel seed in Dafny and proves
what it promises. `dafny verify dfyconfig.toml` checks all of it.

## What is modelled

**The action gate and the micro-worlds.** An action gate scores candidate actions from a predictor's output and
a structural prior in four modes and takes the first strict maximum (`Gate`). It plays six worlds: a code lock,
a tool chain and a memory maze, and three worlds in which the structurally right action is a trap until
something has been set up. Each world is a value with a step function and a class that changes its fields in
place and is proved equal to the function. `Episodes` has the evaluation loop and the general arguments
(approaching a goal, being confined, no shortcut); the `...Play` modules prove how the gate plays each world,
for every code, sequence, run length and predictor; `GateScores` gives its scores in numbers, `PublishedFacts`
what the published facts mean, `Knowledge` what is learnt, and `Sequences` which action sequences reach the
goal; `SymbolicTheorems` does it for the hand-written predictor. Floats are reals. Digits are 1 to 4 and the
target is among the doors where a theorem needs the world to be solvable.

**Counterfactual replay and ranking.** Breadth-first exploration over any deterministic world (`Bfs`), its use
on the memory maze (`MazeExploration`), snapshot and restore (`Snapshots`), the rows of the counterfactual table
(`Counterfactuals`, `CounterfactualLaws`), and the ranking metrics with their grouping, their sums by
environment and the report (`CandidateSets`, `Tallies`, `Ranking`, `PairCounts`, `RankingReports`).

**The work protocol.** Work items, jobs and proposals in a ledger with an event log (`Ledgers`,
`HarnessMemories`), a queue (`WorkQueues`), the services that create, move, enqueue, retry and promote
(`WorkServices`, `CapabilityServices`), the workers (`Workers`) and the activation of finished patches
(`Activations`, `ActivationLaws`, `Patches`). `Protocols` puts them together as a transition system with any
number of items and workers; `Safety` states what holds in every state of every run, `Journeys` what single
operations achieve, and `ServiceResults` and `Children` what each call does in any state. `LedgerLaws`,
`ServiceLaws`, `Deliveries` and `DeliveryLaws` hold the invariants and their preservation.

**The harness task runner.** The safety decision, the choice among candidates and several interleaved calls of
run, approve and reject on one task row (`SafetyGates`, `TaskRunners`, `TaskResults`).

## What is assumed

- Each service call, and each worker step (read, start, finish, fail), is one atomic step. In particular publishing
  a message and marking its job queued are one step; `Safety.UnmarkedPublishGivesTwoActiveJobs` shows that this is needed.
  A run of the task runner is split into admitting, deciding, executing and recording.
- New identifiers are fresh, and restore identifiers are injective.
- A patch is a map from paths to the whole old and new content of each file. Whether it applies is decided by the
  tree, so the check, the application and the reverse application are proved rather than assumed. The test command and the
  smoke check do not change the patched files. The outcomes of the other commands are free inputs.
- A self-patch proposal is identified with the work item that is created together with it.

## What does not hold as one might expect

- The approval of a task has no effect on its execution: the safety decision is always asked for without the approval, so
  a specification that requires approval never executes anything (`src/neurokernel_seed/harness/service.py:191-205`,
  `TaskRunners.ApprovedTasksNeverExecute`). An approved task that is run is left in `deciding` for ever, exactly if it is
  no dry run and has an eligible candidate (`TaskRunners.ApprovedTaskGetsStuckExactly`, `TaskRunners.StuckForever`); the
  same happens to any task where no candidate may go and one needs an approval (`TaskRunners.ApprovalAtRunGetsStuck`).
- `max_attempts` never leads to a second attempt: each message is delivered once, so no job starts twice
  (`Safety.NoJobStartsTwice`). A job that fails with attempts left waits in `retry_wait` for ever and keeps its item from
  getting another job (`Safety.FailureIsNeverRetried`, `Safety.StrandedBlocksItem`; such a run is in
  `Journeys.FailureStrands`).
- The proposal service turns a proposal active without an activation if it is asked to while the proposal is approved and
  its item not yet activated, and nothing else does (`Safety.DirectTurnIsUnearnedExactly`,
  `Journeys.DirectTurnSkipsActivation`); the HTTP routes do not offer it.
- An item that a user moves to `waiting_approval` by hand keeps the patch of whichever job offered one last, so activation
  may commit an older patch than the last job's (`Safety.HandMoveIsNotTracked`, `Journeys.HandMoveActivatesOldPatch`).
  Every item that a job sent there gets that job's patch (`Safety.ActivationTakesTheRightPatch`).
- A promotion looks at ten children only, so it can create another child although one is usable, exactly if there are
  ten others that are not (`Children.PromotionOverlooksExactly`).
- Restoring a hazard maze keeps the door list of the world it is restored into
  (`Snapshots.HazardRestoreIsFaithfulExactly`). Where the counterfactual evaluation rebuilds it from the registry, the rows
  are right exactly if the registered maze has all doors of the snapshot (`Counterfactuals.HazardRowsExactly`,
  `Counterfactuals.HazardRowsCanFail`).
- Hybrid is not safe in a hidden lock: it plays like the prior exactly if the predictor prefers looking to starting over
  (`LockPlay.LockHybridWinsExactly`), and there are predictors with which it never opens one
  (`LockPlay.ResetLoverStalls`).
- The tool chain's expert can ask for an action its world rejects (`ToolPlay.ToolExpertCanBeIllegal`, `ToolPlay.ToolExpertIsIllegal`).

## Model

| member | source | states |
|---|---|---|
| `Gate.FirstStrictMaximum` | src/neurokernel_seed/core/gate.py:89-104 | the scoring loop returns the first strict maximum of the scores: any candidate that strictly beats all earlier and is not beaten by later ones is the result; the first candidate that breaks a contract ends the loop with its error |
| `Gate.ChooseAction` | src/neurokernel_seed/core/gate.py:89-104 | `choose` filters the candidates by their specs, fails without legal candidates, and otherwise returns what the fold over the scores returns |
| `Gate.BestIsFirstStrictMaximum` | src/neurokernel_seed/core/gate.py:94-103 | the fold over the scores and the declarative first strict maximum are the same |
| `Gate.StrictlyBestIsChosen` | src/neurokernel_seed/core/gate.py:89-104 | a candidate whose score strictly beats every different candidate is chosen, wherever it stands and however often it is listed |
| `Gate.FrontWinsTies` | src/neurokernel_seed/core/gate.py:102-103 | ties go to the front of the candidate list |
| `Gate.FrontChosenExactly` | src/neurokernel_seed/core/gate.py:102-103 | the front candidate is chosen if and only if no other scores more |
| `Gate.GateRefusesExactly` | src/neurokernel_seed/core/gate.py:89-104 | a choice fails for want of a known action, or exactly if one of the known actions is refused or forecast invalidly |
| `Gate.FirstFaultIsGiven` | src/neurokernel_seed/core/gate.py:94-101 | the fault reported is the first one in the order of the candidates |
| `Gate.ModelOnlyTakesFirstMaximum` | src/neurokernel_seed/core/gate.py:322-337 | where the current slot is known, model_only takes the first maximum of the model scores, lowered by 2 for a terminal-only action away from the last slot |
| `GateScores.PriorInAnyState` | src/neurokernel_seed/core/gate.py:172-201 | the prior in any state in numbers, told from the required action, the published flags of the action and the progress |
| `GateScores.LockRequires` | src/neurokernel_seed/core/gate.py:340-367 | which action the published facts of a lock require: the digit shown, or once a hint was seen the expected one |
| `GateScores.ToolRequires` | src/neurokernel_seed/core/gate.py:340-367 | the same for tools |
| `GateScores.MazeRequires` | src/neurokernel_seed/core/gate.py:340-367 | the same for doors |
| `GateScores.BlockedInAnyState` | src/neurokernel_seed/core/gate.py:303-312 | what hybrid blocks in any state, from the same |
| `GateScores.LiftedInAnyState` | src/neurokernel_seed/core/gate.py:314-320 | hybrid_veto lifts the block exactly from what reveals while something is required, if it does not carry out the slot or the required action is known to be bad |
| `GateScores.VetoInAnyState` | src/neurokernel_seed/core/gate.py:279-301 | the veto in any state: what it looks at, and what passes in a state that is set up |
| `GateScores.ModelOnlyInAnyState` | src/neurokernel_seed/core/gate.py:322-337 | the model_only score in any state in numbers |
| `GateScores.ModesCompared` | src/neurokernel_seed/core/gate.py:109-150 | for a model score above the block, hybrid adds it to the prior_only score or subtracts the block; hybrid_veto blocks nothing more and takes at most 3 from what it does not block |
| `GateScores.LockPrior` | src/neurokernel_seed/core/gate.py:172-201 | the prior of every action of the lock in numbers, with the slot known and unknown |
| `GateScores.ToolPrior` | src/neurokernel_seed/core/gate.py:172-201 | the same for the tool chain, with the early finish |
| `GateScores.MazePrior` | src/neurokernel_seed/core/gate.py:172-201 | the same for the memory maze |
| `GateScores.LockHybrid` | src/neurokernel_seed/core/gate.py:303-312 | which actions of the lock hybrid blocks: with the slot known all but the right digit, else the presses |
| `GateScores.ToolHybrid` | src/neurokernel_seed/core/gate.py:303-312 | which tools hybrid blocks |
| `GateScores.ToolModelOnly` | src/neurokernel_seed/core/gate.py:322-337 | model_only before an unknown slot of a chain: the looks gain 1, the summary loses 2, and 2 more before the end |
| `GateScores.TrapVeto` | src/neurokernel_seed/core/gate.py:279-301 | the hybrid_veto score of every action of the trapped lock: 1.5 less for a right digit whose predicted outcome is bad, by the thresholds before and after the setup |
| `GateScores.TrapVetoDecidesExactly` | src/neurokernel_seed/core/gate.py:89-150 | for every valid predictor above the block hybrid_veto looks in the trapped lock if and only if the look scores at least as much as the next digit with bonus and veto, and else presses that digit |
| `GateScores.HazardVeto` | src/neurokernel_seed/core/gate.py:279-301 | the hybrid_veto score of every action of the hazard maze, with the penalty for unlikely success |
| `GateScores.GuardedVeto` | src/neurokernel_seed/core/gate.py:279-301 | the hybrid_veto score of every tool of the guarded chain |
| `GateScores.TrapBlockedPays` | src/neurokernel_seed/envs/model_needed.py:36-70 | reward, progress and trap after every action of the trapped lock that hybrid blocks: the look that would disarm and pay, wrong digits and resets |
| `GateScores.HazardBlockedPays` | src/neurokernel_seed/envs/model_needed.py:187-217 | the same for the hazard maze: the look once the hint is seen, every door before |
| `GateScores.GuardedBlockedPays` | src/neurokernel_seed/envs/model_needed.py:340-370 | the same for the guarded chain, with the setup and the expected summary before the end |
| `LockWorlds.LockWorld.StepWorld` | src/neurokernel_seed/envs/lock_world.py:45-75 | one step in place: the new state, reward, success flag and information gain are those of the step function; a refused action raises and changes nothing |
| `LockWorlds.LockWorld.Restore` | src/neurokernel_seed/envs/lock_world.py:90-99 | whatever the world was before, after restore it is the snapshot, so it continues exactly as the original would |
| `LockWorlds.Step` | src/neurokernel_seed/envs/lock_world.py:45-75 | every step counts itself, keeps the configuration, reports success exactly when the goal is reached, and ends the episode on success or when the steps run out |
| `ToolWorlds.ToolWorld.StepWorld` | src/neurokernel_seed/envs/tool_world.py:43-69 | one step in place: the new state, reward, success flag and information gain are those of the step function; a refused action raises and changes nothing |
| `ToolWorlds.ToolWorld.Restore` | src/neurokernel_seed/envs/tool_world.py:84-95 | whatever the world was before, after restore it is the snapshot, so it continues exactly as the original would |
| `ToolWorlds.Step` | src/neurokernel_seed/envs/tool_world.py:43-69 | every step counts itself, keeps the configuration, reports success exactly when the goal is reached, and ends the episode on success or when the steps run out |
| `MemoryMazes.MemoryMaze.StepWorld` | src/neurokernel_seed/envs/memory_maze.py:44-68 | one step in place: the new state, reward, success flag and information gain are those of the step function; a refused action raises and changes nothing |
| `MemoryMazes.MemoryMaze.Restore` | src/neurokernel_seed/envs/memory_maze.py:82-93 | whatever the world was before, after restore it is the snapshot, so it continues exactly as the original would |
| `MemoryMazes.Step` | src/neurokernel_seed/envs/memory_maze.py:44-68 | every step counts itself, keeps the configuration, reports success exactly when the goal is reached, and ends the episode on success or when the steps run out |
| `LockTrapWorlds.LockTrapWorld.StepWorld` | src/neurokernel_seed/envs/model_needed.py:36-70 | one step in place: the new state, reward, success flag and information gain are those of the step function; a refused action raises and changes nothing |
| `LockTrapWorlds.LockTrapWorld.Restore` | src/neurokernel_seed/envs/model_needed.py:84-90 | whatever the world was before, after restore it is the snapshot, so it continues exactly as the original would |
| `LockTrapWorlds.Step` | src/neurokernel_seed/envs/model_needed.py:36-70 | every step counts itself, keeps the configuration, reports success exactly when the goal is reached, and ends the episode on success or when the steps run out |
| `MazeHazardWorlds.MazeHazardWorld.StepWorld` | src/neurokernel_seed/envs/model_needed.py:187-217 | one step in place: the new state, reward, success flag and information gain are those of the step function; a refused action raises and changes nothing |
| `MazeHazardWorlds.MazeHazardWorld.Restore` | src/neurokernel_seed/envs/model_needed.py:234-243 | restore replaces configuration and state by the snapshot but keeps the action specs the world was built with |
| `MazeHazardWorlds.Step` | src/neurokernel_seed/envs/model_needed.py:187-217 | every step counts itself, keeps the configuration, reports success exactly when the goal is reached, and ends the episode on success or when the steps run out |
| `ToolPreconditionWorlds.ToolPreconditionWorld.StepWorld` | src/neurokernel_seed/envs/model_needed.py:340-370 | one step in place: the new state, reward, success flag and information gain are those of the step function; a refused action raises and changes nothing |
| `ToolPreconditionWorlds.ToolPreconditionWorld.Restore` | src/neurokernel_seed/envs/model_needed.py:384-390 | whatever the world was before, after restore it is the snapshot, so it continues exactly as the original would |
| `ToolPreconditionWorlds.Step` | src/neurokernel_seed/envs/model_needed.py:340-370 | every step counts itself, keeps the configuration, reports success exactly when the goal is reached, and ends the episode on success or when the steps run out |
| `Schema.InitialMask` | src/neurokernel_seed/envs/lock_world.py:118-126 | which slots a reset shows: all, none, or the first half but at least one |
| `Episodes.RunEpisode` | src/neurokernel_seed/eval/evaluator.py:55-92 | the evaluation loop: steps, reward, final state and crash of the play given by repeated turns until the state is terminal or max_steps is reached, and the average of the root mean square errors of its predictions, if it made any |
| `Episodes.NoErrorIsReported` | src/neurokernel_seed/eval/evaluator.py:84-92 | play whose turns all have error 0 reports none or 0 |
| `Episodes.ErrorMeasuresMiss` | src/neurokernel_seed/eval/evaluator.py:102-104 | the error of a forecast vanishes exactly if it is right, and is at most the square of its greatest miss |
| `Episodes.ReportIsBetween` | src/neurokernel_seed/eval/evaluator.py:84-92 | an error is reported exactly if there is one, and lies between the least and the greatest root |
| `Episodes.ApproachWins` | src/neurokernel_seed/eval/evaluator.py:63-78 | a policy that comes one step nearer to success wherever it goes succeeds in exactly the distance, if the budget allows |
| `Episodes.ConfinedNeverWins` | src/neurokernel_seed/eval/evaluator.py:63-78 | a policy confined to states without success never wins, for any budget |
| `Accuracy.CloseScore` | src/neurokernel_seed/core/gate.py:152-161 | an error of eps in reward, progress change and information gain moves the model score by at most 4 eps; a free success probability adds at most one half |
| `LockTrapPlay.TrapVetoFollowsExpert` | src/neurokernel_seed/core/gate.py:109-150 | trapped lock: for every predictor whose error eps is tolerated at this length of code (8 eps at most 1.45, and 7 eps below 0.76 + 2/n if n > 1), hybrid_veto chooses the expert action in every unfinished state |
| `LockTrapPlay.TrapToleranceIsExact` | src/neurokernel_seed/core/gate.py:109-150 | that tolerance is exact for every code: all predictors within eps are handled in all unfinished states if and only if eps is tolerated |
| `LockTrapPlay.TrapToleranceOverAll` | src/neurokernel_seed/core/gate.py:109-150 | over codes of all lengths eps is tolerated if and only if 7 eps is at most 0.76 |
| `LockTrapPlay.TrapVetoWins` | src/neurokernel_seed/envs/model_needed.py:36-70 | trapped lock: a gate whose predictor is that accurate in the states on the way opens every code of length n in exactly n + 1 steps from a reset, if max_steps allows |
| `LockTrapPlay.TrapVetoWinsExactly` | src/neurokernel_seed/envs/model_needed.py:36-70 | the tolerance is exact for whole runs too: every predictor within eps on the way from a reset wins in n + 1 steps if and only if eps is tolerated |
| `LockTrapPlay.TrapLivelock` | src/neurokernel_seed/core/gate.py:121-133 | trapped lock: prior_only with any predictor, and hybrid with any predictor whose model scores stay above the block score, never opens it, for any max_steps |
| `LockTrapPlay.TrapHybridEscapesExactly` | src/neurokernel_seed/core/gate.py:303-312 | in hybrid the livelock condition is exact: the trap is inspected if and only if the model score of the punished digit is at or below the block score less the match bonus |
| `LockTrapPlay.TrapShortest` | src/neurokernel_seed/envs/model_needed.py:36-70 | no action sequence opens the trapped lock in fewer than n + 1 steps from a reset |
| `MazeHazardPlay.HazardVetoFollowsExpert` | src/neurokernel_seed/core/gate.py:109-150 | hazard maze with the hint seen: for every predictor within 0.18375 of the true step, hybrid_veto chooses the expert action |
| `MazeHazardPlay.HazardToleranceIsExact` | src/neurokernel_seed/core/gate.py:109-150 | 0.18375 is exact at every active hazard: all predictors within eps are handled if and only if eps is at most that |
| `MazeHazardPlay.HazardVetoWins` | src/neurokernel_seed/envs/model_needed.py:187-217 | from every reset a gate that is that accurate where the hint is seen, and above the block where it is not, escapes in exactly 2 steps if it must look first, for the hint or for an active hazard, and else in 1, if max_steps allows as many |
| `MazeHazardPlay.HazardLooksFirst` | src/neurokernel_seed/core/gate.py:121-133 | while the hint is hidden hybrid and hybrid_veto inspect, with every valid predictor above the block score |
| `MazeHazardPlay.HazardLivelock` | src/neurokernel_seed/core/gate.py:121-133 | with the hint seen and the hazard active, prior_only and hybrid above the block score never escape |
| `MazeHazardPlay.HazardPriorWinsExactly` | src/neurokernel_seed/envs/model_needed.py:187-217 | prior_only escapes from a reset if and only if it does not start with the hint seen and the hazard active, given steps enough |
| `MazeHazardPlay.HazardShortest` | src/neurokernel_seed/envs/model_needed.py:187-217 | no action sequence escapes an active hazard in fewer than 2 steps |
| `ToolPreconditionPlay.GuardedVetoFollowsExpert` | src/neurokernel_seed/core/gate.py:109-150 | tool precondition world: for every predictor within 0.0275 of the true step, or 0.09 in the chain of a single summarize, hybrid_veto chooses the expert action in every unfinished state |
| `ToolPreconditionPlay.GuardedToleranceIsExact` | src/neurokernel_seed/core/gate.py:279-301 | that tolerance is exact for every chain: all predictors within eps are handled in all unfinished states if and only if eps is at most that |
| `ToolPreconditionPlay.GuardedVetoWins` | src/neurokernel_seed/envs/model_needed.py:340-370 | with a predictor that accurate on the way it finishes every sequence of length n in exactly n + 1 steps |
| `ToolPreconditionPlay.GuardedLivelock` | src/neurokernel_seed/core/gate.py:121-133 | without the veto the precondition is never made ready, for any predictor above the block score and any max_steps |
| `ToolPreconditionPlay.GuardedShortest` | src/neurokernel_seed/envs/model_needed.py:340-370 | no action sequence finishes the chain in fewer than n + 1 steps |
| `Sequences.TrapOpensExactly` | src/neurokernel_seed/envs/model_needed.py:36-70 | which action sequences leave the trapped lock open, said of the sequence alone: after the last reset there is an inspect, and the digits pressed after it spell the code, where a wrong digit starts the spelling anew |
| `Sequences.WrongDigitIsLost` | src/neurokernel_seed/envs/model_needed.py:60-62 | it is not enough that the digits come one after another: a wrong digit is not itself tried as a first digit |
| `Sequences.HazardEscapesExactly` | src/neurokernel_seed/envs/model_needed.py:187-217 | which action sequences escape the hazard maze: those that open the right door somewhere, behind an inspect if the hazard was active |
| `Sequences.TrapStepCosts` | src/neurokernel_seed/envs/model_needed.py:36-70 | after each action of the trapped lock, the fewest actions that can still open it |
| `Sequences.HazardStepCosts` | src/neurokernel_seed/envs/model_needed.py:187-217 | the same for the hazard maze |
| `Sequences.GuardedStepCosts` | src/neurokernel_seed/envs/model_needed.py:340-370 | the same for the guarded chain: a wrong or premature tool costs one more step, except at the first slot |
| `LockPlay.TypableExactly` | src/neurokernel_seed/envs/lock_world.py:101-105 | a code can be typed exactly if the keypad has all its digits |
| `LockPlay.LockPriorWins` | src/neurokernel_seed/envs/lock_world.py:45-75 | prior_only opens a lock of any visibility in exactly n + u steps, u being the number of slots hidden at the reset, with any valid predictor |
| `LockPlay.LockHybridWinsVisible` | src/neurokernel_seed/core/gate.py:303-312 | hybrid opens a visible lock in exactly n steps, with any valid predictor above the block score |
| `LockPlay.LockHybridLooksExactly` | src/neurokernel_seed/core/gate.py:172-201 | before an unknown digit hybrid inspects exactly if the model score of inspect with its bonus is at least that of reset, less the penalty for losing progress; otherwise it resets |
| `LockPlay.LockModelOnlyLooksExactly` | src/neurokernel_seed/core/gate.py:322-337 | before an unknown digit of a lock that is not visible, model_only inspects if and only if no press is rated 3 more than inspect and reset not 1 more |
| `LockPlay.LockHybridWinsExactly` | src/neurokernel_seed/core/gate.py:303-312 | from any state at step 0, so from a reset in any visibility, hybrid opens the lock in exactly n + u steps if and only if that holds at every hidden state on the expert's way |
| `LockPlay.LockHybridCanStall` | src/neurokernel_seed/core/gate.py:303-312 | a predictor for which it fails before the first digit keeps hybrid resetting: it never opens a lock whose first digit is hidden, for any max_steps |
| `LockPlay.ResetLoverStalls` | src/neurokernel_seed/core/gate.py:303-312 | such a predictor exists: valid, above the block score, and with it hybrid opens no hidden lock |
| `LockPlay.LockShortest` | src/neurokernel_seed/envs/lock_world.py:45-75 | from any state no action sequence opens the lock in fewer steps than digits are left |
| `ToolPlay.ToolGateWins` | src/neurokernel_seed/envs/tool_world.py:43-69 | prior_only with any valid predictor, and hybrid above the block score, finish a tool chain of every visibility in exactly n + u steps; with hidden slots some tool of the chain must be able to reveal |
| `ToolPlay.ToolShortest` | src/neurokernel_seed/envs/tool_world.py:43-69 | from any state no action sequence finishes the chain in fewer steps than slots are left |
| `ToolPlay.ToolExpertCanBeIllegal` | src/neurokernel_seed/envs/tool_world.py:100-107 | the expert asks for an action the world rejects, exactly when the hidden slot is summarize and the chain has no search |
| `ToolPlay.ToolExpertIsIllegal` | src/neurokernel_seed/envs/tool_world.py:100-107 | for example right after a reset of the chain of a single hidden summarize |
| `MemoryMazePlay.MazeGateWins` | src/neurokernel_seed/envs/memory_maze.py:44-68 | prior_only, and hybrid above the block score that rates no wrong door 2.2 or more above the target once the hint is seen, escape in exactly 2 steps, 1 if visible, if max_steps allows as many |
| `MemoryMazePlay.MazeMarginIsExact` | src/neurokernel_seed/core/gate.py:172-201 | 2.2 is exact, door by door: with the hint seen hybrid takes the target if and only if it scores above the block, every door before it is rated less than 2.2 above it and every door after it at most 2.2 |
| `MemoryMazePlay.MazeModelOnlyLooksExactly` | src/neurokernel_seed/core/gate.py:322-337 | before the hint model_only inspects if and only if no door is rated 5 more than inspect |
| `MemoryMazePlay.MazeShortest` | src/neurokernel_seed/envs/memory_maze.py:44-68 | no action sequence escapes sooner |
| `SymbolicTheorems.ExactInLock` | src/neurokernel_seed/predictors/symbolic.py:20-47 | in every unfinished state and for every legal action of the lock the predicted next vector, reward, terminal flag and information gain are those of the step |
| `SymbolicTheorems.ExactInTool` | src/neurokernel_seed/predictors/symbolic.py:49-74 | the same for the tool chain |
| `SymbolicTheorems.ExactInMaze` | src/neurokernel_seed/predictors/symbolic.py:76-100 | the same for the memory maze |
| `SymbolicTheorems.LockErrorIsZero` | src/neurokernel_seed/eval/evaluator.py:66-72 | no episode of any policy in the lock has a prediction error other than 0 |
| `SymbolicTheorems.ToolErrorIsZero` | src/neurokernel_seed/eval/evaluator.py:66-72 | the same for the tool chain |
| `SymbolicTheorems.MazeErrorIsZero` | src/neurokernel_seed/eval/evaluator.py:66-72 | the same for the memory maze |
| `SymbolicTheorems.ForecastStatesProgressExactly` | src/neurokernel_seed/predictors/symbolic.py:20-100 | no forecast gives a probability of success; progress is stated exactly for locks and the setup of a guarded chain, as the change of the first component |
| `SymbolicTheorems.ExactlyInTrap` | src/neurokernel_seed/predictors/symbolic.py:20-47 | in the trapped lock the predictor is exact on an action (next vector, reward, terminal flag, information gain) if and only if the trap is armed, or the action is neither a reset nor a right digit that does not open the lock yet |
| `SymbolicTheorems.ExactlyInHazard` | src/neurokernel_seed/predictors/symbolic.py:76-100 | in the hazard maze it is exact if and only if the action is an inspect that clears the hazard, or a door that is wrong or opened with the hint seen |
| `SymbolicTheorems.ExactlyInGuarded` | src/neurokernel_seed/predictors/symbolic.py:49-74 | in the guarded chain it is exact except on a needless search and, away from the first slot, the expected tool before the setup |
| `PublishedFacts.LockPublishes` | src/neurokernel_seed/envs/lock_world.py:128-169 | what the published facts mean: can_finish that the expert opens the lock at once, is_last_step_index that some action does, and the slot is known exactly where the gate requires the expert's action |
| `PublishedFacts.ToolPublishes` | src/neurokernel_seed/envs/tool_world.py:143-185 | the same for the tool chain |
| `PublishedFacts.MazePublishes` | src/neurokernel_seed/envs/memory_maze.py:106-143 | the same for the memory maze |
| `PublishedFacts.TrapPublishes` | src/neurokernel_seed/envs/model_needed.py:106-155 | and in the trapped lock the setup facts say whether the required digit brings the end nearer |
| `PublishedFacts.HazardPublishes` | src/neurokernel_seed/envs/model_needed.py:256-314 | in the hazard maze they say whether the right door leads out |
| `PublishedFacts.GuardedPublishes` | src/neurokernel_seed/envs/model_needed.py:404-447 | in the guarded chain they say whether the expected tool brings the end nearer |
| `PublishedFacts.FractionIsProgress` | src/neurokernel_seed/replay/counterfactual.py:657-667 | the published fraction is the progress that the rows measure, except that the hazard maze counts its hint as seen |
| `Knowledge.LockGain` | src/neurokernel_seed/envs/lock_world.py:45-90 | along every sequence of actions the information gained in a lock is the number of slots uncovered |
| `Knowledge.ToolGain` | src/neurokernel_seed/envs/tool_world.py:43-80 | the same for the tool chain |
| `Knowledge.MazeGain` | src/neurokernel_seed/envs/memory_maze.py:44-75 | in the memory maze it is one for the hint, once |
| `Knowledge.LastLookIsRemembered` | src/neurokernel_seed/envs/lock_world.py:45-90 | however play goes on, a lock remembers its last look, rightly, and what was uncovered stays so |
| `Knowledge.SearchIsRemembered` | src/neurokernel_seed/envs/tool_world.py:51-65 | a tool chain remembers which tool uncovered which slot, and nothing else uncovers one |
| `Knowledge.KnownIsShown` | src/neurokernel_seed/envs/lock_world.py:128-169 | the worlds publish exactly what is known and cover the rest |
| `PublishedFacts.LockRefuses` | src/neurokernel_seed/envs/lock_world.py:45-62 | the lock refuses exactly what is no action of its own, and a press once it is open |
| `PublishedFacts.TrapRefuses` | src/neurokernel_seed/envs/model_needed.py:36-60 | the same for the trapped lock |
| `PublishedFacts.ToolRefuses` | src/neurokernel_seed/envs/tool_world.py:43-44 | the tool chain refuses exactly what is no tool of its sequence |
| `PublishedFacts.GuardedRefuses` | src/neurokernel_seed/envs/model_needed.py:340-341 | the guarded chain refuses exactly what is no tool |
| `PublishedFacts.MazeRefuses` | src/neurokernel_seed/envs/memory_maze.py:44-45 | the maze refuses exactly what is neither a look nor a door it was built with |
| `PublishedFacts.HazardRefuses` | src/neurokernel_seed/envs/model_needed.py:187-188 | the same for the hazard maze |
| `SymbolicTheorems.SymbolicVetoWinsTrap` | src/neurokernel_seed/eval/gate_ablation.py:90-130 | with the hand-written predictor hybrid_veto opens every trapped lock in n + 1 steps, and neither hybrid nor prior_only ever does |
| `SymbolicTheorems.SymbolicVetoWinsHazard` | src/neurokernel_seed/eval/gate_ablation.py:90-130 | with it hybrid_veto escapes from every reset in 2 steps if it must look first and else in 1, and past an active hazard with the hint seen neither hybrid nor prior_only ever escapes |
| `SymbolicTheorems.SymbolicVetoWinsGuarded` | src/neurokernel_seed/eval/gate_ablation.py:90-130 | with it hybrid_veto finishes every guarded chain in n + 1 steps, and neither hybrid nor prior_only ever does |
| `Snapshots.HazardRestoreIsFaithfulExactly` | src/neurokernel_seed/envs/model_needed.py:234-243 | a hazard maze restored into another world is observed exactly as the original along every action sequence, if and only if both were built for the same set of doors |
| `Snapshots.ReplayLock` | src/neurokernel_seed/envs/lock_world.py:77-99 | whatever world of the class the snapshot is restored into, along every list of actions it shows what the original would show; the original is left as it was |
| `Snapshots.ReplayTool` | src/neurokernel_seed/envs/tool_world.py:71-95 | whatever world of the class the snapshot is restored into, along every list of actions it shows what the original would show; the original is left as it was |
| `Snapshots.ReplayMaze` | src/neurokernel_seed/envs/memory_maze.py:70-93 | whatever world of the class the snapshot is restored into, along every list of actions it shows what the original would show; the original is left as it was |
| `Snapshots.ReplayTrapLock` | src/neurokernel_seed/envs/model_needed.py:72-90 | whatever world of the class the snapshot is restored into, along every list of actions it shows what the original would show; the original is left as it was |
| `Snapshots.ReplayGuardedChain` | src/neurokernel_seed/envs/model_needed.py:372-390 | whatever world of the class the snapshot is restored into, along every list of actions it shows what the original would show; the original is left as it was |
| `Snapshots.ReplayHazard` | src/neurokernel_seed/envs/model_needed.py:219-243 | whatever world of the class the snapshot is restored into, along every list of actions it shows what the original would show, if both were built for the same set of doors; the original is left as it was |
| `Counterfactuals.EvaluateLock` | src/neurokernel_seed/replay/counterfactual.py:537-597 | every candidate is tried on a world of its own, built as registered or from the snapshot; the rows are the original's, and the original is unchanged |
| `Counterfactuals.EvaluateTool` | src/neurokernel_seed/replay/counterfactual.py:537-597 | every candidate is tried on a world of its own, built as registered or from the snapshot; the rows are the original's, and the original is unchanged |
| `Counterfactuals.EvaluateMaze` | src/neurokernel_seed/replay/counterfactual.py:537-597 | every candidate is tried on a world of its own, built as registered or from the snapshot; the rows are the original's, and the original is unchanged |
| `Counterfactuals.EvaluateTrapLock` | src/neurokernel_seed/replay/counterfactual.py:537-597 | every candidate is tried on a world of its own, built as registered or from the snapshot; the rows are the original's, and the original is unchanged |
| `Counterfactuals.EvaluateGuardedChain` | src/neurokernel_seed/replay/counterfactual.py:537-597 | every candidate is tried on a world of its own, built as registered or from the snapshot; the rows are the original's, and the original is unchanged |
| `Counterfactuals.EvaluateHazard` | src/neurokernel_seed/replay/counterfactual.py:537-629 | the same, with the rows of a maze that has the registered doors if its name is registered |
| `Counterfactuals.HazardRowsExactly` | src/neurokernel_seed/replay/counterfactual.py:604-626 | these are the original's rows if and only if the registered maze, if there is one, has all doors of the snapshot; otherwise the evaluation fails with a contract error |
| `CounterfactualLaws.RowsAccount` | src/neurokernel_seed/replay/counterfactual.py:544-553 | every row accounts for the progress: the progress before plus the row's change is the progress of the state it shows, which is the one its action leads to |
| `CounterfactualLaws.ProgressAddsUp` | src/neurokernel_seed/replay/counterfactual.py:544-553 | along every action sequence the changes add up to the change of progress from start to end |
| `CounterfactualLaws.LockExpertRow` | src/neurokernel_seed/replay/counterfactual.py:544-553 | in an unfinished lock whose slot is known the right digit's row scores above every other |
| `CounterfactualLaws.ToolExpertRow` | src/neurokernel_seed/replay/counterfactual.py:544-553 | in a tool chain whose slot is known the expected tool's |
| `CounterfactualLaws.MazeExpertRow` | src/neurokernel_seed/replay/counterfactual.py:544-553 | in the memory maze the expert's |
| `CounterfactualLaws.TrapExpertRow` | src/neurokernel_seed/replay/counterfactual.py:544-553 | in the trapped lock the expert's, armed or not |
| `CounterfactualLaws.HazardExpertRow` | src/neurokernel_seed/replay/counterfactual.py:544-553 | in the hazard maze the expert's |
| `CounterfactualLaws.GuardedExpertRow` | src/neurokernel_seed/replay/counterfactual.py:544-553 | in the guarded chain the expert's |
| `CounterfactualLaws.TruthScoresLikeRow` | src/neurokernel_seed/core/gate.py:152-161 | a forecast of exactly what happens is scored like the row, but for one half more where the budget ends on a positive reward without success |
| `CounterfactualLaws.ProbabilityCountsHalf` | src/neurokernel_seed/core/gate.py:152-161 | a given probability of success counts half and replaces the guess from reward and end |
| `Counterfactuals.HazardRowsCanFail` | src/neurokernel_seed/replay/counterfactual.py:604-626 | for example a maze with a yellow door under the name of a registered maze without one: the original refuses no candidate, and the evaluation fails |
| `Counterfactuals.RowsAreTheWorlds` | src/neurokernel_seed/replay/counterfactual.py:544-597 | an evaluation is complete exactly if the world refuses no candidate, and then has one row for each, as the world itself would produce it |
| `Counterfactuals.LockRowsComplete` | src/neurokernel_seed/replay/counterfactual.py:544-547 | in an unfinished lock no candidate is refused, so the evaluation is complete |
| `Counterfactuals.ToolRowsComplete` | src/neurokernel_seed/replay/counterfactual.py:544-547 | in a tool chain no candidate is refused, so the evaluation is complete |
| `Counterfactuals.MazeRowsComplete` | src/neurokernel_seed/replay/counterfactual.py:544-547 | in a memory maze no candidate is refused, so the evaluation is complete |
| `Counterfactuals.TrapRowsComplete` | src/neurokernel_seed/replay/counterfactual.py:544-547 | in an unfinished trapped lock no candidate is refused, so the evaluation is complete |
| `Counterfactuals.GuardedRowsComplete` | src/neurokernel_seed/replay/counterfactual.py:544-547 | in a guarded chain no candidate is refused, so the evaluation is complete |
| `Bfs.Explore` | src/neurokernel_seed/replay/counterfactual.py:508-534 | the exploration terminates and returns exactly the non-terminal states within max_depth steps through non-terminal states, each once, with its shortest distance, nearest first; the fallback for an empty list never applies |
| `Bfs.ClosedIsComplete` | src/neurokernel_seed/replay/counterfactual.py:515-531 | with an empty queue every state within the limit has been taken up at no more than its distance |
| `Bfs.TakeLightens` | src/neurokernel_seed/replay/counterfactual.py:515-531 | replacing the head of the queue by its successors lowers the weight of the queue |
| `MazeExploration.CollectMaze` | src/neurokernel_seed/replay/counterfactual.py:221-231 | exploring a hidden or partially hidden memory maze to depth max_steps - 1 gives 2 * max_steps - 1 states, a visible one max_steps |
| `MazeExploration.MazeCount` | src/neurokernel_seed/replay/counterfactual.py:508-534 | the same for every depth limit: 2 d + 1 states, d being the limit or max_steps - 1 if that is less |
| `CandidateSets.CandidateGroups` | src/neurokernel_seed/model/ranking.py:41-49 | rows with the same non-empty identifier form one group with all their positions in order, groups come in the order of their first row, and the call fails exactly if no row has an identifier |
| `Ranking.RankingMetrics` | src/neurokernel_seed/model/ranking.py:52-94 | the counters equal the sums over the groups, and the entry of each environment the sums over its own groups |
| `RankingReports.EvalActionRanking` | src/neurokernel_seed/model/ranking.py:13-38 | from the rows and the model's outputs to the report: the groups are exactly the candidate sets with the true and predicted scores of their rows, and the reported ratios, overall and by environment, are those of the sums over them |
| `RankingReports.RatiosAreBounded` | src/neurokernel_seed/model/ranking.py:96-106 | every reported accuracy is between 0 and 1, top-1 is at most top-2, and the regret is not negative |
| `RankingReports.ReportCounts` | src/neurokernel_seed/model/ranking.py:96-137 | every reported number is the share, of the groups or of the differing pairs, that its name says, or the mean loss, overall and in each environment |
| `RankingReports.RegretIsBounded` | src/neurokernel_seed/model/ranking.py:71-101 | the reported regret is at most twice the largest error of a predicted score |
| `RankingReports.RegretBoundIsExact` | src/neurokernel_seed/model/ranking.py:65-71 | twice is exact: for every delta there is a group off by delta that loses 2 delta |
| `RankingReports.ScoreError` | src/neurokernel_seed/model/ranking.py:109-117 | outputs within eps of a counterfactual row, with the success probability within sigma, are scored like the row up to 4 eps + sigma / 2 |
| `Ranking.CountPairs` | src/neurokernel_seed/model/ranking.py:86-94 | the nested loops count the differing pairs and those among them ordered as predicted |
| `PairCounts.PairsAreCounted` | src/neurokernel_seed/model/ranking.py:86-94 | the counters are the numbers of pairs of candidates with different scores, and of those predicted in their true order, each pair counted once over all groups |
| `PairCounts.GroupTakesSamples` | src/neurokernel_seed/model/ranking.py:62-85 | a missing score counts as 0, a given one as it is, and the first sample says where and when the group was taken |
| `Ranking.OrderIsStable` | src/neurokernel_seed/model/ranking.py:65-66 | the predicted order is a permutation of the positions, descending and stable |
| `Ranking.TopOneExactly` | src/neurokernel_seed/model/ranking.py:64-69 | top-1 is hit exactly if the first best candidate is predicted above every earlier one and not below any later one |
| `Ranking.PerfectPairsNoRegret` | src/neurokernel_seed/model/ranking.py:71-94 | a perfect pairwise accuracy leaves no regret |
| `Ranking.MonotoneScoresArePerfect` | src/neurokernel_seed/model/ranking.py:62-94 | scores that are any strictly increasing function of the true ones hit top-1 in every group, ties included, order every pair correctly and leave no regret |
| `Ranking.MetricBounds` | src/neurokernel_seed/model/ranking.py:61-94 | top1 is at most top2 and top2 at most the number of groups; regret is never negative; correct pairs never exceed counted pairs |
| `Tallies.EnvironmentsAddUp` | src/neurokernel_seed/model/ranking.py:75-85 | however the environments are listed, their sums add up to the totals |
| `WorkQueues.InMemoryWorkQueue.Read` | src/neurokernel_seed/harness/work_queue.py:145-154 | a read returns the first count messages of the named queues in order and keeps all others in order |
| `WorkQueues.InMemoryWorkQueue.Enqueue` | src/neurokernel_seed/harness/work_queue.py:139-143 | publishing appends the message with the next number |
| `WorkQueues.ReadIsStablePartition` | src/neurokernel_seed/harness/work_queue.py:145-154 | in every queue the messages before a read are the delivered ones followed by the kept ones |
| `WorkQueues.ReadIsGreedy` | src/neurokernel_seed/harness/work_queue.py:145-154 | a read delivers wanted messages only, and stops early only when none is left |
| `WorkQueues.DeliveriesArePrefix` | src/neurokernel_seed/harness/work_queue.py:139-154 | over every history of publishing and reading, the deliveries from each queue are a prefix of what was published to it |
| `HarnessMemories.HarnessMemory.TransitionWorkItem` | src/neurokernel_seed/harness/memory.py:523-531 | a status change happens exactly if the table allows it, and is logged; a refused one changes nothing |
| `HarnessMemories.HarnessMemory.FindActiveWorkJob` | src/neurokernel_seed/harness/memory.py:602-612 | a job is found exactly if the item has one that is created, queued, running or waiting for a retry |
| `HarnessMemories.HarnessMemory.MarkWorkJobFailed` | src/neurokernel_seed/harness/memory.py:690-705 | a retryable failure with attempts left waits for a retry, any other is dead |
| `HarnessMemories.HarnessMemory.TransitionCapabilityProposal` | src/neurokernel_seed/harness/memory.py:861-872 | the same as for work items, with the proposal table |
| `WorkServices.WorkItemService.EnqueueWork` | src/neurokernel_seed/harness/work_service.py:82-112 | nothing happens while a job is active; otherwise a job is created and published and queued, or marked as not enqueued |
| `WorkServices.WorkItemService.TransitionWork` | src/neurokernel_seed/harness/work_service.py:73-80 | a status change, followed by enqueueing if the item is accepted |
| `WorkServices.WorkItemService.RetryWork` | src/neurokernel_seed/harness/work_service.py:114-167 | only reviewing, blocked and failed self-patch items without an active job are retried |
| `WorkServices.WorkItemService.PromoteToSelfPatch` | src/neurokernel_seed/harness/work_service.py:169-230 | an external item gets a self-patch child, unless a listed one is still usable |
| `WorkServices.Enqueue` | src/neurokernel_seed/harness/work_service.py:82-112 | refused exactly for unknown items, and declined exactly while the item has an active job; both change nothing |
| `WorkStates.TableReadBackwards` | src/neurokernel_seed/harness/work_states.py:15-29 | the table of work statuses, read from the target: where each status can come from |
| `WorkStates.ProposalTableReadBackwards` | src/neurokernel_seed/harness/work_states.py:4-13 | the same for proposals |
| `WorkStates.EverythingCanBeArchived` | src/neurokernel_seed/harness/work_states.py:15-29 | rejected and archived are final, and from every other status work can be archived in at most two moves |
| `CapabilityServices.CapabilityProposalService.TransitionProposal` | src/neurokernel_seed/harness/capability_service.py:97-115 | the proposal moves, its item follows if the table allows it, and an accepted item is enqueued |
| `Workers.WorkDispatcher.StartMessage` | src/neurokernel_seed/harness/worker.py:64-71 | the job runs, and a runnable item is started or observed by its type and status |
| `Workers.WorkDispatcher.FinishMessage` | src/neurokernel_seed/harness/worker.py:72-80 | the result is recorded, moves a self-patch item, completes the job and acknowledges the message |
| `Workers.WorkDispatcher.FailMessage` | src/neurokernel_seed/harness/worker.py:81-99 | self-patch failures are dead at once and send the item to review; others wait while attempts are left, unacknowledged |
| `Workers.ResultSendsItem` | src/neurokernel_seed/harness/self_patch.py:341-350 | an item is sent to activation exactly with a patch that passed tests and format check |
| `LedgerLaws.MoveKeeps` | src/neurokernel_seed/harness/memory.py:523-531 | an allowed move keeps the log append-only, the status a fold of it, and, unless it asks for activation, the origin of the patch to activate |
| `Safety.StatusIsFoldOfLog` | src/neurokernel_seed/harness/memory.py:464-480 | in every state of every run each status column is the fold of its log, every move in the log is in the table, and logs only grow |
| `Safety.AtMostOneActiveJob` | src/neurokernel_seed/harness/work_service.py:82-167 | at most one active job per work item in every state of every interleaving of users and workers |
| `Safety.EveryMessageIsPlaced` | src/neurokernel_seed/harness/worker.py:57-102 | every published message is in exactly one place: waiting, held by one worker, acknowledged, or unacknowledged with its job in retry_wait |
| `Safety.DeliveryIsCoherent` | src/neurokernel_seed/harness/worker.py:57-102 | the invariant behind both, kept by every run |
| `Safety.WorkersAreNeverStuck` | src/neurokernel_seed/harness/worker.py:57-102 | a worker that holds a message can always go on |
| `Safety.StrandedBlocksItem` | src/neurokernel_seed/harness/memory.py:690-705 | a job in retry_wait stays there in every continuation, and its item never accepts another job |
| `Safety.FailureStrandsExactly` | src/neurokernel_seed/harness/worker.py:81-99 | a failure leaves its item with an active job exactly if the job is not a self-patch job and has attempts left |
| `Safety.NoJobStartsTwice` | src/neurokernel_seed/harness/memory.py:690-705 | in every state of every run no job was started more than once |
| `Safety.FailureIsNeverRetried` | src/neurokernel_seed/harness/memory.py:690-705 | so a job that fails is dead or waits for ever: exactly if it is not a self-patch job and was not started or has more than one attempt; it blocks its item exactly then |
| `Journeys.FailureStrands` | src/neurokernel_seed/harness/worker.py:57-99 | a run in which external work accepted with more than one attempt fails and ends in retry_wait, with no message left |
| `Safety.SelfPatchJobFreesItem` | src/neurokernel_seed/harness/worker.py:72-99 | once a worker has finished or failed a self-patch job, no active job of that item remains |
| `Safety.FailedRetryRestores` | src/neurokernel_seed/harness/work_service.py:145-167 | a retry whose job is not published restores the previous status and leaves no active job |
| `Safety.StaleJobIsHarmlessExactly` | src/neurokernel_seed/harness/worker.py:119-161 | a self-patch job that finds its item not runnable leaves the status alone when it starts, and when it ends exactly if the item is not runnable then |
| `Safety.UnmarkedPublishGivesTwoActiveJobs` | src/neurokernel_seed/harness/work_service.py:106-112 | if publishing and marking came apart, one more enqueue and the start of the lost message would make two active jobs |
| `Safety.ActivationTakesTheRightPatch` | src/neurokernel_seed/harness/activation.py:276-284 | in every run and for every item in waiting_approval: the patch that activation takes is that of the job that asked last, exactly if a job asked last; so it is in every run without a hand move of this item to waiting_approval |
| `Safety.PatchIsLastOffered` | src/neurokernel_seed/harness/activation.py:276-284 | the patch that activation takes is the last one offered in the log, by the job that offered it |
| `Safety.HandMoveIsNotTracked` | src/neurokernel_seed/harness/work_service.py:73-80 | a hand move to waiting_approval leaves the patch to be taken as it was, without the job that asked; the item can be activated exactly if some job had offered a patch |
| `Journeys.HandMoveActivatesOldPatch` | src/neurokernel_seed/harness/activation.py:48-172 | a run in which a second job fails its tests, a user moves the item to waiting_approval by hand, and activation commits the patch of the first job |
| `Safety.HeadMovesOnlyTested` | src/neurokernel_seed/harness/activation.py:48-141 | HEAD moves only by activating an item in waiting_approval with a ready patch, to the patched tree on which the tests passed, with the verification passed |
| `Safety.HeadIsTested` | src/neurokernel_seed/harness/activation.py:91-128 | in every state of every run HEAD points to the first tree or to one on which the test command passed |
| `Safety.HeadHasPassed` | src/neurokernel_seed/harness/activation.py:48-143 | wherever HEAD ends up in a run, if it moves, that tree passed tests and due smoke check in an activation of a waiting item in this run, made by its last patch |
| `Safety.RepositoryStaysClean` | src/neurokernel_seed/harness/activation.py:64-128 | where every activation commits, HEAD, index and working tree agree after every step of every run |
| `Safety.UncommittedActivationRestores` | src/neurokernel_seed/harness/activation.py:174-189 | an activation that commits nothing leaves HEAD and the working tree as they were, and a failed one leaves the item in review |
| `Safety.ActiveProposalsAreEarned` | src/neurokernel_seed/harness/activation.py:161-171 | in every run in which no caller turns this very proposal active directly: if it is active, its item has been activated |
| `Safety.DirectTurnIsUnearnedExactly` | src/neurokernel_seed/harness/capability_service.py:97-115 | of all steps exactly the direct turn of a proposal that is approved for development, and whose item was not activated, makes it active without an activation |
| `Safety.DirectTurnMovesProposal` | src/neurokernel_seed/harness/capability_service.py:97-115 | the service turns a proposal active exactly if it is approved for development, and then changes nothing but the proposal |
| `Journeys.DirectTurnSkipsActivation` | src/neurokernel_seed/harness/capability_service.py:97-115 | a run of three calls that ends with an active proposal whose item was never activated |
| `Journeys.EnqueueDelivers` | src/neurokernel_seed/harness/work_service.py:82-112 | an item without an active job gets one queued job and one message for it at the end of the queue, or a job that is not active; its status stays |
| `Journeys.RetryIsTakenUpExactly` | src/neurokernel_seed/harness/work_service.py:114-167 | a retry is taken up exactly for a self-patch item in review, blocked or failed without an active job; then the item runs with a new queued job |
| `Journeys.TurnTakesItemAlong` | src/neurokernel_seed/harness/capability_service.py:97-131 | an allowed turn moves the proposal and takes its item along where the table allows it; an approval enqueues exactly an item that it accepts |
| `Journeys.BreakdownIsReviewed` | src/neurokernel_seed/harness/worker.py:81-117 | a self-patch run that breaks down kills its job, sends a running item to review and logs it; other work keeps its status |
| `ServiceResults.StartInAnyState` | src/neurokernel_seed/harness/worker.py:57-139 | what starting a message does to item, log, job and queue in any state |
| `ServiceResults.EndInAnyState` | src/neurokernel_seed/harness/worker.py:57-161 | what the end of a run does to them: the job is done, the message acknowledged, and a self-patch item moved where the result and the table send it |
| `ServiceResults.CollapseInAnyState` | src/neurokernel_seed/harness/worker.py:81-99 | what a run that breaks off does to them |
| `ServiceResults.EnqueueInAnyState` | src/neurokernel_seed/harness/work_service.py:82-112 | what enqueueing does: the job with its attempts and message, or its mark when the queue is out of reach |
| `ServiceResults.EnqueueIsDeclinedExactly` | src/neurokernel_seed/harness/work_service.py:82-92 | enqueueing is declined exactly while a job of the item is neither completed, dead nor unpublished |
| `ServiceResults.MoveInAnyState` | src/neurokernel_seed/harness/work_service.py:73-80 | what a change of status does, and when it is refused |
| `ServiceResults.FailedRetryIsLogged` | src/neurokernel_seed/harness/work_service.py:114-167 | a retry that is not published ends where it began, with both moves in the log |
| `ServiceResults.RetryRefusals` | src/neurokernel_seed/harness/work_service.py:114-124 | why a retry is refused |
| `ServiceResults.PromotionInAnyState` | src/neurokernel_seed/harness/work_service.py:169-230 | when a promotion is refused, when it finds a usable child, and the child it creates otherwise |
| `Children.PromotionOverlooksExactly` | src/neurokernel_seed/harness/work_service.py:179-192 | a promotion can create another child although one is usable, exactly if one is and ten others are not |
| `Children.ListingLength` | src/neurokernel_seed/harness/memory.py:512-521 | the query lists all children if there are fewer than ten, and else ten different ones |
| `Children.ListingExists` | src/neurokernel_seed/harness/memory.py:512-521 | and there always is such a listing |
| `ServiceResults.ProposalInAnyState` | src/neurokernel_seed/harness/capability_service.py:156-190 | a new proposal and its item, with their logs |
| `ServiceResults.TurnRefusals` | src/neurokernel_seed/harness/capability_service.py:97-115 | why a turn of a proposal is refused |
| `ServiceResults.TurnInAnyState` | src/neurokernel_seed/harness/capability_service.py:97-131 | an allowed turn is logged with the proposal, its item follows or that it cannot is remarked, and an accepted item without an active job gets one |
| `ServiceResults.SuccessIsRecorded` | src/neurokernel_seed/harness/activation.py:155-172 | what a success writes in the log of the item, and what it makes of an external parent |
| `ServiceResults.ProposalIsRecorded` | src/neurokernel_seed/harness/activation.py:155-172 | its own proposal becomes active if it was approved, and is else only remarked upon |
| `ServiceResults.UnactivatableIsRefused` | src/neurokernel_seed/harness/activation.py:48-62 | what cannot be activated is refused and nothing changes |
| `Journeys.PromotionQueuesChild` | src/neurokernel_seed/harness/work_service.py:169-230 | a promotion leaves the parent's status alone and gives it an accepted self-patch child, with an active job if the queue is in reach |
| `Journeys.ExternalWorkIsOnlyPlanned` | src/neurokernel_seed/harness/worker.py:119-155 | a worker changes the status of other than self-patch work only from accepted to planned |
| `Journeys.SuccessSpreads` | src/neurokernel_seed/harness/activation.py:161-171 | a successful activation completes the item, an external parent if the table allows it, and turns an approved proposal active |
| `Journeys.ProposalReachesHead` | src/neurokernel_seed/harness/activation.py:48-172 | for every patch that fits there is a run from a proposal through approval, queue, worker and activation that commits the patched tree, completes the item and turns the proposal active |
| `Activations.ActivationService.ActivateWorkItem` | src/neurokernel_seed/harness/activation.py:48-172 | the whole call: checks, patch, tests, verification, commit, reload, and what the ledger records of it |
| `Activations.ActivationService.ChangeRepository` | src/neurokernel_seed/harness/activation.py:58-143 | the repository after the call, stage by stage |
| `Activations.ActivationService.LatestPatchReady` | src/neurokernel_seed/harness/activation.py:276-284 | the patch of the last ready result in the log |
| `Activations.FailureRestores` | src/neurokernel_seed/harness/activation.py:79-128 | every activation that stops before the commit leaves working tree and HEAD as they were; only a failed commit touches the index and puts it back to HEAD |
| `Activations.CommitIsTested` | src/neurokernel_seed/harness/activation.py:91-128 | what is committed is the patched working tree after passing tests and verification, and leaves the repository clean |
| `Activations.FailureIsReviewed` | src/neurokernel_seed/harness/activation.py:174-189 | failed and reload-failed activations end in review, refused ones leave the ledger alone, successful ones complete the item |
| `Activations.DirtyIsLeftAlone` | src/neurokernel_seed/harness/activation.py:64-77 | a repository with uncommitted changes is not touched when a clean one is required |
| `ActivationLaws.EndIsFirstFailure` | src/neurokernel_seed/harness/activation.py:48-143 | how an activation ends is decided by the first of the checks and commands that fails, in their order |
| `ActivationLaws.ReloadAndRevParse` | src/neurokernel_seed/harness/activation.py:131-172 | after everything else went well: a failed reload leaves the patched tree committed, the item in review with the failure logged, and proposals and jobs alone; a failed last rev-parse leaves the ledger alone; success comes exactly if neither fails |
| `ActivationLaws.FailureIsLogged` | src/neurokernel_seed/harness/activation.py:174-189 | a failed activation logs the failure, sends the item to review and touches neither proposals nor jobs |
| `ActivationLaws.SmokeStops` | src/neurokernel_seed/harness/activation.py:107-117 | a failed smoke check stops the activation exactly if verification is enabled and there is a proposal; the repository is then as it was |
| `Patches.ReverseRestores` | src/neurokernel_seed/harness/activation.py:79-94 | a patch that fits can be reversed after it is applied, and the reverse restores the tree exactly |
| `SafetyGates.AllowedExactlyIfHarmless` | src/neurokernel_seed/harness/safety_gate.py:27-56 | a candidate is allowed exactly if it is active, on an allowed target, free of side effects and approvals, of risk none or low, and the specification neither requires approval nor is dry-run |
| `SafetyGates.DecisionExactly` | src/neurokernel_seed/harness/safety_gate.py:27-56 | each decision exactly, for candidates and all other actions: denied if out of bounds, dry run next, allowed if nobody needs to approve |
| `SafetyGates.ChooseFirstAllowed` | src/neurokernel_seed/harness/service.py:324-334 | the loop returns the same choice as the recursive description |
| `SafetyGates.ChooseTakesFirst` | src/neurokernel_seed/harness/service.py:324-334 | the first candidate that may go is chosen, else the first that needs approval, else none |
| `TaskRunners.TaskRunner.AdmitRun` | src/neurokernel_seed/harness/service.py:176-189 | without candidates the run fails the row whatever its status; only a ready one is taken up |
| `TaskRunners.TaskRunner.DecideRun` | src/neurokernel_seed/harness/service.py:191-212 | denied rows fail, dry runs complete, allowed ones execute, and a needed approval is refused by the transition table |
| `TaskRunners.TaskRunner.RecordExecution` | src/neurokernel_seed/harness/service.py:345-356 | the result completes or fails the row |
| `TaskRunners.AtMostOneHarmlessExecution` | src/neurokernel_seed/harness/service.py:176-231 | over every interleaving of run, approve, reject and dry_run at most one action is executed, and a harmless one |
| `TaskRunners.FinalIsNeverLeft` | src/neurokernel_seed/harness/memory.py:61-76 | completed and failed are never left, although two writes skip the table |
| `TaskRunners.ReadyTaskExecutesExactly` | src/neurokernel_seed/harness/service.py:176-215 | a ready row that is taken up goes on to execute exactly if one of its candidates is harmless |
| `TaskResults.ExecutedEndsAsRecorded` | src/neurokernel_seed/harness/service.py:345-356 | over every run, a row that executed something is completed exactly if a success was recorded, failed exactly if a failure was, and else still executing |
| `TaskResults.CompletedUnexecutedIsDry` | src/neurokernel_seed/harness/service.py:197-201 | a row completed without an execution is a dry run |
| `TaskResults.HarmlessRunEnds` | src/neurokernel_seed/harness/service.py:176-231 | a ready row with a harmless candidate executes the first of them, and ends completed if and only if that succeeds |
| `TaskResults.OtherRunEnds` | src/neurokernel_seed/harness/service.py:191-205 | a ready row without one executes nothing: it fails if no candidate is eligible, is completed if it is a dry run, and gets stuck otherwise |
| `TaskResults.CreationAndAnswer` | src/neurokernel_seed/harness/service.py:143-175 | a row must be validated before it is routed; approval and rejection affect waiting rows only |
| `TaskResults.TaskTableReadBackwards` | src/neurokernel_seed/harness/state_machine.py:20-32 | the task table, read from the target |
| `TaskRunners.ApprovalAtRunGetsStuck` | src/neurokernel_seed/harness/service.py:202-205 | the decision of a run leaves the row stuck in deciding if and only if no candidate may go and some candidate needs an approval |
| `TaskRunners.ApprovedTaskGetsStuckExactly` | src/neurokernel_seed/harness/service.py:143-205 | a task that requires approval, is approved and then run gets stuck if and only if it is no dry run and some candidate is active, on an allowed target and not forbidden |
| `TaskRunners.ApprovedTaskGetsStuck` | src/neurokernel_seed/harness/service.py:143-205 | for example a readonly task with one harmless action: created, approved and run, it is stuck |
| `TaskRunners.StuckForever` | src/neurokernel_seed/harness/state_machine.py:20-32 | and there it stays in every continuation |
| `TaskRunners.ApprovedTasksNeverExecute` | src/neurokernel_seed/harness/service.py:143-231 | a specification that requires approval never executes anything, even after it was approved |

## Left out

- Custom gate configurations: the constants of the default configuration are used throughout.
- Predictors that replace the state the gate scores (`visible_state`), and the audit and explanation output of the gate.
- Theorems about whole runs of `model_only`: its scores are modelled, but nothing bounds an arbitrary model.
- World names, splits, seeds and the derived facts that neither the gate nor a predictor reads.
- Float rounding.
- Episodes.RunEpisode: the square root is an arbitrary function, and the averages over several episodes and the episode log are not modelled.
- Collectors other than the breadth-first one, split filters, and the writing of counterfactual rows to files.
- Fallback keys and defaults in `restore` for snapshots that lack a field.
- RankingReports.EvalActionRanking: the model's outputs are arbitrary numbers and the sigmoid an arbitrary function, since training, inference and feature encoding are not modelled; nor are the checks of the feature schema.
- The Redis queue: only the in-memory queue's behaviour is modelled, with any number of readers.
- Messages without a job or item identifier, and messages for unknown jobs, which a worker sends to the dead letters: no service publishes them.
- Database errors inside one service call or one worker step, errors of the queue while acknowledging, and the second error handler of the worker.
- Runs of the self-patch worker itself (workspace, watchdog, contract and evidence files); its result is an input.
- Timestamps, notes' texts, redaction, priorities, titles, routing text and the deduplication of proposals.
- WorkServices.WorkItemService.PromoteToSelfPatch: the order in which the query lists children is an input, limited to ten children as in the query.
- Activations.ActivationService.ActivateWorkItem: the check of the declared file list, the resolution of the patch file and the action smoke check are inputs, because they depend on files and executors.
- Activation archives, command records and the environment configuration.
- A command runner that raises instead of returning a code.
- Worker heartbeats other than their log entries, and the report of stale running jobs.
- TaskRunners.TaskRunner.CreateTask: validation of the submitted specification, traces, approvals' records and decision records are not modelled.
- The Discord bot, the HTTP server, the command line, preferences and conversation memory.
