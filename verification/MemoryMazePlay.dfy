/** How the gate plays the memory maze: the prior decides unless the model is very wrong. */
module MemoryMazePlay {
  import opened Wrappers
  import opened Schema
  import opened Gate
  import opened Episodes
  import opened Accuracy
  import opened MemoryMazes

  function MazeDistance(w: Maze): nat {
    if w.escaped then 0 else if w.sawHint then 1 else 2
  }

  const MAZE: Sim<Maze> := Sim(
    Step, View, (w: Maze) => SpecsFor(w.doors), Candidates, Expert,
    (w: Maze) => w.escaped, (w: Maze) => w.steps, (w: Maze) => w.maxSteps, MazeDistance, MazeDistance)

  lemma MazeLawful()
    ensures MAZE.Lawful()
  {
    forall w, a | MAZE.step(w, a).Ok? ensures MAZE.Settles(w, a) {
      assert Settled(w, Step(w, a).value);
    }
  }

  predicate Solvable(w: Maze) {
    w.targetColor in w.doors && Named(w.targetColor)
  }

  lemma MazeOffers(w: Maze)
    requires Solvable(w)
    ensures Inspect in Candidates(w) && Move(w.targetColor) in Candidates(w)
    ensures forall a :: a in Candidates(w) ==> ValidAction(a, SpecsFor(w.doors)) && (a == Inspect || a.Move?)
  {
    assert Candidates(w)[0] == Inspect;
    var i :| 0 <= i < |w.doors| && w.doors[i] == w.targetColor;
    assert Candidates(w)[i + 1] == Move(w.targetColor);
  }

  lemma MazeExpertApproaches(w: Maze)
    requires Solvable(w) && !w.escaped
    ensures Nearer(MAZE, w, Expert(w))
  {
  }

  /** No wrong door is rated 2.2 or more above the target: match bonus plus mismatch penalty. */
  predicate WithinMargin(predictor: Predictor<Maze>, w: Maze) {
    ValidPrediction(predictor(w, Move(w.targetColor)), 4) ==>
      forall d :: d in w.doors && d != w.targetColor && ValidPrediction(predictor(w, Move(d)), 4) ==>
        ModelScore(View(w), predictor(w, Move(d)))
          < ModelScore(View(w), predictor(w, Move(w.targetColor))) + 2.2
  }

  predicate AllValid(predictor: Predictor<Maze>, w: Maze) {
    forall a :: a in Candidates(w) ==> ValidPrediction(predictor(w, a), 4)
  }

  /** prior_only follows the expert; so does hybrid above the block and within the margin. */
  lemma MazeGateFollowsExpert(w: Maze, mode: Mode, predictor: Predictor<Maze>)
    requires Solvable(w) && !w.escaped && AllValid(predictor, w)
    requires mode == PriorOnly
          || (mode == Hybrid && AboveBlock(MAZE, predictor, w) && (w.sawHint ==> WithinMargin(predictor, w)))
    ensures Decide(MAZE, mode, predictor, w) == Ok(Expert(w))
  {
    MazeOffers(w);
    assert RequiredAction(View(w)) == if w.sawHint then Some(Expert(w)) else None;
    var rating := RatingAt(MAZE, mode, predictor, w);
    forall b | b in Candidates(w) ensures rating(b).Ok? {
    }
    forall b | b in Candidates(w) && b != Expert(w) ensures rating(b).value < rating(Expert(w)).value {
    }
    StrictlyBestIsChosen(rating, SpecsFor(w.doors), Candidates(w), Expert(w));
  }

  predicate DoorsValid(w: Maze, predictor: Predictor<Maze>) {
    forall d :: d in w.doors ==> ValidPrediction(predictor(w, Move(d)), 4)
  }

  /** The model score of a door with what the prior adds once the hint is known. */
  function DoorScore(w: Maze, predictor: Predictor<Maze>, d: string): real
    requires DoorsValid(w, predictor) && d in w.doors
  {
    ModelScore(View(w), predictor(w, Move(d))) + if d == w.targetColor then 1.0 else -1.2
  }

  /** What hybrid makes of the candidates once the hint is known: inspect is blocked, no door is. */
  lemma MazeRatings(w: Maze, predictor: Predictor<Maze>)
    requires Solvable(w) && w.sawHint && DoorsValid(w, predictor) && ValidPrediction(predictor(w, Inspect), 4)
    ensures RatingAt(MAZE, Hybrid, predictor, w)(Inspect) == Ok(-1000000.0)
    ensures forall d :: d in w.doors ==> RatingAt(MAZE, Hybrid, predictor, w)(Move(d)) == Ok(DoorScore(w, predictor, d))
  {
    assert RequiredAction(View(w)) == Some(Move(w.targetColor));
  }

  /** The target's first door t beats the block and the doors before it, and no door after it beats the target. */
  predicate TargetLeads(w: Maze, predictor: Predictor<Maze>, t: nat)
    requires Solvable(w) && DoorsValid(w, predictor)
  {
    var right := DoorScore(w, predictor, w.targetColor);
    && -1000000.0 < right
    && (forall i :: 0 <= i < |w.doors| && i < t ==> DoorScore(w, predictor, w.doors[i]) < right)
    && (forall i :: 0 <= i < |w.doors| && t < i ==> DoorScore(w, predictor, w.doors[i]) <= right)
  }

  predicate IsFirstDoor(w: Maze, t: nat) {
    t < |w.doors| && w.doors[t] == w.targetColor && forall i :: 0 <= i < t ==> w.doors[i] != w.targetColor
  }

  /** The rating of the candidate at i, for inspect at 0 and the doors after it. */
  lemma MazeRatingAt(w: Maze, predictor: Predictor<Maze>, i: int)
    requires Solvable(w) && w.sawHint && DoorsValid(w, predictor) && ValidPrediction(predictor(w, Inspect), 4)
    requires 0 <= i < |Candidates(w)|
    ensures RatingAt(MAZE, Hybrid, predictor, w)(Candidates(w)[i])
         == Ok(if i == 0 then -1000000.0 else DoorScore(w, predictor, w.doors[i - 1]))
  {
    MazeRatings(w, predictor);
    assert i > 0 ==> Candidates(w)[i] == Move(w.doors[i - 1]);
  }

  lemma FirstMaximumLeads(w: Maze, predictor: Predictor<Maze>, t: nat, k: nat)
    requires Solvable(w) && w.sawHint && DoorsValid(w, predictor) && ValidPrediction(predictor(w, Inspect), 4)
    requires IsFirstDoor(w, t) && k < |w.doors| + 1 && Candidates(w)[k] == Move(w.targetColor)
    requires IsFirstStrictMaximum(RatingAt(MAZE, Hybrid, predictor, w), Candidates(w), k)
    ensures TargetLeads(w, predictor, t)
  {
    var rating, actions := RatingAt(MAZE, Hybrid, predictor, w), Candidates(w);
    MazeRatings(w, predictor);
    assert actions[0] == Inspect && actions[t + 1] == actions[k] && k == t + 1;
    forall i | 0 <= i < |w.doors|
      ensures i < t ==> DoorScore(w, predictor, w.doors[i]) < DoorScore(w, predictor, w.targetColor)
      ensures t < i ==> DoorScore(w, predictor, w.doors[i]) <= DoorScore(w, predictor, w.targetColor)
    {
      var next := i + 1;
      assert actions[next] == Move(w.doors[i]);
    }
  }

  lemma LeadsIsFirstMaximum(w: Maze, predictor: Predictor<Maze>, t: nat)
    requires Solvable(w) && w.sawHint && DoorsValid(w, predictor) && ValidPrediction(predictor(w, Inspect), 4)
    requires IsFirstDoor(w, t) && TargetLeads(w, predictor, t)
    ensures IsFirstStrictMaximum(RatingAt(MAZE, Hybrid, predictor, w), Candidates(w), t + 1)
  {
    var rating, actions, k := RatingAt(MAZE, Hybrid, predictor, w), Candidates(w), t + 1;
    MazeRatingAt(w, predictor, k);
    forall i | 0 <= i < |actions|
      ensures rating(actions[i]).Ok?
      ensures i < k ==> rating(actions[i]).value < rating(actions[k]).value
      ensures k < i ==> rating(actions[i]).value <= rating(actions[k]).value
    {
      MazeRatingAt(w, predictor, i);
    }
  }

  /** The margin is exact, door by door: with the hint seen, hybrid takes the target if and only if every door before
      it is rated less than 2.2 above it, every door after it at most 2.2, and it is itself above the block. */
  lemma MazeMarginIsExact(w: Maze, predictor: Predictor<Maze>, t: nat)
    requires Solvable(w) && w.sawHint && DoorsValid(w, predictor) && ValidPrediction(predictor(w, Inspect), 4)
    requires IsFirstDoor(w, t)
    ensures Decide(MAZE, Hybrid, predictor, w) == Ok(Move(w.targetColor)) <==> TargetLeads(w, predictor, t)
  {
    var rating, actions := RatingAt(MAZE, Hybrid, predictor, w), Candidates(w);
    MazeOffers(w);
    LegalKeepsAll(actions, SpecsFor(w.doors));
    assert actions[t + 1] == Move(w.targetColor);
    if TargetLeads(w, predictor, t) {
      LeadsIsFirstMaximum(w, predictor, t);
      BestIsFirstStrictMaximum(rating, actions, t + 1);
    } else if Decide(MAZE, Hybrid, predictor, w) == Ok(Move(w.targetColor)) {
      var k := FirstStrictMaximumExists(rating, actions);
      FirstMaximumLeads(w, predictor, t, k);
    }
  }

  /** Before the hint, model_only looks exactly if no door is rated 5 more than looking. */
  lemma MazeModelOnlyLooksExactly(w: Maze, predictor: Predictor<Maze>)
    requires Solvable(w) && !w.sawHint && !w.visibility.Visible?
    requires DoorsValid(w, predictor) && ValidPrediction(predictor(w, Inspect), 4)
    ensures Decide(MAZE, ModelOnly, predictor, w) == Ok(Inspect)
       <==> forall d :: d in w.doors ==>
              ModelScore(View(w), predictor(w, Inspect)) + 5.0 >= ModelScore(View(w), predictor(w, Move(d)))
  {
    var rating, actions := RatingAt(MAZE, ModelOnly, predictor, w), Candidates(w);
    MazeOffers(w);
    assert rating(Inspect) == Ok(ModelScore(View(w), predictor(w, Inspect)) + 1.0);
    forall d | d in w.doors
      ensures Move(d) in actions && rating(Move(d)) == Ok(ModelScore(View(w), predictor(w, Move(d))) - 4.0)
    {
      var i :| 0 <= i < |w.doors| && w.doors[i] == d;
      var k := i + 1;
      assert actions[k] == Move(d);
    }
    forall a | a in actions ensures rating(a).Ok? && (a == Inspect || (a.Move? && a.door in w.doors)) {
    }
    FrontChosenExactly(rating, SpecsFor(w.doors), actions);
  }

  /** From a reset the gate escapes in exactly 2 steps, or 1 when the hint is visible. */
  lemma MazeGateWins(target: string, doors: seq<string>, maxSteps: int, visibility: Visibility, mode: Mode,
                     predictor: Predictor<Maze>)
    requires target in doors && Named(target) && (if visibility.Visible? then 1 else 2) <= maxSteps
    requires mode == PriorOnly || mode == Hybrid
    requires forall w: Maze :: w.targetColor == target && w.doors == doors && w.maxSteps == maxSteps && !w.escaped ==>
      && AllValid(predictor, w)
      && (mode == Hybrid ==> AboveBlock(MAZE, predictor, w) && (w.sawHint ==> WithinMargin(predictor, w)))
    ensures WinsIn(MAZE, GatePolicy(MAZE, mode, predictor), Start(target, doors, maxSteps, visibility),
                   if visibility.Visible? then 1 else 2)
  {
    var region := (w: Maze) => w.targetColor == target && w.doors == doors && w.maxSteps == maxSteps;
    var policy := GatePolicy(MAZE, mode, predictor);
    forall w: Maze | region(w) && !MAZE.success(w) ensures Progresses(MAZE, policy, region, w) {
      MazeGateFollowsExpert(w, mode, predictor);
      MazeExpertApproaches(w);
      assert Settled(w, Step(w, Expert(w)).value);
    }
    MazeLawful();
    ApproachWins(MAZE, policy, region, Start(target, doors, maxSteps, visibility));
  }

  /** No sequence of actions escapes sooner. */
  lemma MazeShortest(target: string, doors: seq<string>, maxSteps: int, visibility: Visibility, actions: seq<Action>)
    requires 0 < |doors| && 0 < maxSteps
    requires Follow(MAZE, Start(target, doors, maxSteps, visibility), actions).Ok?
    requires MAZE.success(Follow(MAZE, Start(target, doors, maxSteps, visibility), actions).value)
    ensures |actions| >= if visibility.Visible? then 1 else 2
  {
    MazeLawful();
    NoShortcut(MAZE, Start(target, doors, maxSteps, visibility), actions);
  }
}
