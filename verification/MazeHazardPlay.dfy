/** How the gate plays the hazardous maze. */
module MazeHazardPlay {
  import opened Wrappers
  import opened Schema
  import opened Gate
  import opened Episodes
  import opened Accuracy
  import opened MazeHazardWorlds

  function Distance(w: HazardMaze): nat {
    if w.now.escaped then 0 else 1 + (if w.now.hazardActive then 1 else 0)
  }

  const HAZARD: Sim<HazardMaze> := Sim(
    Step, View, (w: HazardMaze) => SpecsFor(w.build.specDoors), Candidates, Expert,
    (w: HazardMaze) => w.now.escaped, (w: HazardMaze) => w.now.steps, (w: HazardMaze) => w.config.maxSteps,
    Distance, Distance)

  lemma HazardLawful()
    ensures HAZARD.Lawful()
  {
    forall w, a | HAZARD.step(w, a).Ok? ensures HAZARD.Settles(w, a) {
      assert Settled(w, Step(w, a).value);
    }
  }

  /** A world as its constructor builds it, with a target that is one of its doors. */
  predicate Playable(w: HazardMaze) {
    && w.build.specDoors == w.config.doors
    && w.config.targetColor in w.config.doors
    && Named(w.config.targetColor)
    && (w.now.hazardActive ==> w.config.hazardPresent)
  }

  lemma Offered(w: HazardMaze)
    requires Playable(w)
    ensures Inspect in Candidates(w) && Move(w.config.targetColor) in Candidates(w)
    ensures forall a :: a in Candidates(w) ==>
      ValidAction(a, SpecsFor(w.build.specDoors)) && (a == Inspect || (a.Move? && a.door in w.config.doors))
  {
    assert Candidates(w)[0] == Inspect;
    var i :| 0 <= i < |w.config.doors| && w.config.doors[i] == w.config.targetColor;
    assert Candidates(w)[i + 1] == Move(w.config.targetColor);
  }

  lemma HazardExpertApproaches(w: HazardMaze)
    requires Playable(w) && !w.now.escaped
    ensures Nearer(HAZARD, w, Expert(w))
    ensures var next := Step(w, Expert(w)).value.next; Playable(next) && (w.now.sawHint ==> next.now.sawHint)
  {
    Offered(w);
    assert Settled(w, Step(w, Expert(w)).value);
  }

  function HazardScore(mode: Mode, predictor: Predictor<HazardMaze>, w: HazardMaze, a: Action)
    : Result<real, GateError>
  {
    Rate(mode, SpecsFor(w.build.specDoors), View(w), b => predictor(w, b), a)
  }

  /** What the accuracy of the predictor says about a candidate's score before the veto. */
  lemma HazardScoreIsClose(w: HazardMaze, predictor: Predictor<HazardMaze>, eps: real, b: Action)
    requires Playable(w) && !w.now.escaped && w.now.sawHint && b in Candidates(w)
    requires Faithful(HAZARD, predictor, w, eps)
    ensures ValidPrediction(predictor(w, b), 4) && Accurate(HAZARD, predictor, w, b, eps) && Step(w, b).Ok?
    ensures var t := Step(w, b).value;
      var base := t.reward + t.informationGain;
      ScoreBetween(View(w), predictor(w, b), base + 2.0 * (Progress(View(t.next)) - Progress(View(w))), eps)
      || ScoreBetween(View(w), predictor(w, b), base + 2.0 * VectorGain(View(w), View(t.next)), eps)
  {
    Offered(w);
    assert RequiredAction(View(w)) == Some(Move(w.config.targetColor));
    assert !HardBlocked(HybridVeto, SpecsFor(w.build.specDoors), View(w), b);
    var t := Step(w, b).value;
    assert Accurate(HAZARD, predictor, w, b, eps);
    CloseScore(View(w), predictor(w, b), View(t.next), t.reward, t.informationGain, eps);
  }

  /** While the hazard is active inspect scores at least 0.385 and no other candidate more. */
  lemma HazardActiveScores(w: HazardMaze, predictor: Predictor<HazardMaze>, eps: real, b: Action)
    requires Playable(w) && !w.now.escaped && w.now.sawHint && w.now.hazardActive
    requires 0.0 <= eps <= 0.18375 && Faithful(HAZARD, predictor, w, eps)
    requires b in Candidates(w)
    ensures var r := HazardScore(HybridVeto, predictor, w, b);
      r.Ok? && if b == Inspect then r.value >= 0.385 else r.value <= 0.385
  {
    Offered(w);
    assert RequiredAction(View(w)) == Some(Move(w.config.targetColor));
    HazardScoreIsClose(w, predictor, eps, b);
  }

  /** Once it is gone the right door scores above 1.26 and no other candidate does. */
  lemma HazardClearScores(w: HazardMaze, predictor: Predictor<HazardMaze>, eps: real, b: Action)
    requires Playable(w) && !w.now.escaped && w.now.sawHint && !w.now.hazardActive
    requires 0.0 <= eps <= 0.18375 && Faithful(HAZARD, predictor, w, eps)
    requires b in Candidates(w)
    ensures var r := HazardScore(HybridVeto, predictor, w, b);
      r.Ok? && if b == Move(w.config.targetColor) then r.value > 1.26 else r.value <= 1.26
  {
    Offered(w);
    assert RequiredAction(View(w)) == Some(Move(w.config.targetColor));
    HazardScoreIsClose(w, predictor, eps, b);
  }

  /** hybrid_veto plays the expert's action wherever the hint is seen, for every such predictor. */
  lemma HazardVetoFollowsExpert(w: HazardMaze, predictor: Predictor<HazardMaze>, eps: real)
    requires Playable(w) && !w.now.escaped && w.now.sawHint
    requires 0.0 <= eps <= 0.18375 && Faithful(HAZARD, predictor, w, eps)
    ensures Decide(HAZARD, HybridVeto, predictor, w) == Ok(Expert(w))
  {
    Offered(w);
    var rating := RatingAt(HAZARD, HybridVeto, predictor, w);
    forall b | b in Candidates(w)
      ensures rating(b).Ok? && rating(Expert(w)).Ok?
      ensures rating(b).value <= rating(Expert(w)).value
      ensures !w.now.hazardActive && b != Expert(w) ==> rating(b).value < rating(Expert(w)).value
    {
      assert rating(b) == HazardScore(HybridVeto, predictor, w, b);
      assert rating(Expert(w)) == HazardScore(HybridVeto, predictor, w, Expert(w));
      if w.now.hazardActive {
        HazardActiveScores(w, predictor, eps, b);
        HazardActiveScores(w, predictor, eps, Inspect);
      } else {
        HazardClearScores(w, predictor, eps, b);
        HazardClearScores(w, predictor, eps, Expert(w));
      }
    }
    if w.now.hazardActive {
      FrontWinsTies(rating, SpecsFor(w.build.specDoors), Candidates(w));
    } else {
      StrictlyBestIsChosen(rating, SpecsFor(w.build.specDoors), Candidates(w), Expert(w));
    }
  }

  /** With an active hazard: off by e in the worst direction for inspect and in the best for the right door. */
  function WorstForecast(e: real): Predictor<HazardMaze> {
    (w: HazardMaze, a: Action) =>
      if a == Inspect then Prediction(View(w).vector, 0.12 - e, false, 0.5, Some(0.0), Some(-e), Some(1.0 - e))
      else if a == Move(w.config.targetColor) then Prediction(View(w).vector, -0.35 + e, false, 0.5, Some(1.0), Some(e),
        Some(e))
      else Prediction(View(w).vector, -0.25, false, 0.5, Some(0.0), Some(0.0), None)
  }

  lemma WorstForecastIsFaithful(w: HazardMaze, e: real, eps: real)
    requires Playable(w) && !w.now.escaped && w.now.sawHint && w.now.hazardActive && 0.0 <= e <= eps && e <= 0.2
    ensures Faithful(HAZARD, WorstForecast(e), w, eps)
  {
    Offered(w);
    var predictor := WorstForecast(e);
    forall a | a in Candidates(w)
      ensures ValidPrediction(predictor(w, a), |View(w).vector|) && Accurate(HAZARD, predictor, w, a, eps)
    {
      var t := Step(w, a).value;
      assert Progress(View(t.next)) == Progress(View(w));
    }
  }

  /** Beyond 0.18375 some predictor that close makes the gate run into the active hazard. */
  lemma WorstForecastMisleads(w: HazardMaze, e: real)
    requires Playable(w) && !w.now.escaped && w.now.sawHint && w.now.hazardActive && 0.18375 < e <= 0.2
    ensures Decide(HAZARD, HybridVeto, WorstForecast(e), w) == Ok(Move(w.config.targetColor))
  {
    Offered(w);
    var rating, right := RatingAt(HAZARD, HybridVeto, WorstForecast(e), w), Move(w.config.targetColor);
    assert RequiredAction(View(w)) == Some(right);
    forall b | b in Candidates(w) ensures rating(b).Ok? {
    }
    assert rating(right).value == -0.35 + 4.0 * e;
    forall b | b in Candidates(w) && b != right ensures rating(b).value < rating(right).value {
    }
    StrictlyBestIsChosen(rating, SpecsFor(w.build.specDoors), Candidates(w), right);
  }

  /** The exact tolerance at every active hazard: every predictor within eps makes hybrid_veto inspect, if and only
      if eps is at most 0.18375. */
  lemma HazardToleranceIsExact(w: HazardMaze, eps: real)
    requires Playable(w) && !w.now.escaped && w.now.sawHint && w.now.hazardActive && 0.0 <= eps
    ensures (forall predictor: Predictor<HazardMaze> :: Faithful(HAZARD, predictor, w, eps) ==>
              Decide(HAZARD, HybridVeto, predictor, w) == Ok(Expert(w)))
       <==> eps <= 0.18375
  {
    if eps <= 0.18375 {
      forall predictor: Predictor<HazardMaze> | Faithful(HAZARD, predictor, w, eps)
        ensures Decide(HAZARD, HybridVeto, predictor, w) == Ok(Expert(w))
      {
        HazardVetoFollowsExpert(w, predictor, eps);
      }
    } else {
      var e := if eps < 0.2 then eps else 0.2;
      WorstForecastIsFaithful(w, e, eps);
      WorstForecastMisleads(w, e);
    }
  }

  predicate GoodConfig(c: HazardConfig) {
    0 < |c.doors| && 0 < c.maxSteps && c.targetColor in c.doors && Named(c.targetColor)
  }

  /** Before the right door the gate must look: for the hint, or to clear the hazard. */
  predicate MustLook(c: HazardConfig, active: bool) {
    !c.initialSawHint || (active && c.hazardPresent)
  }

  /** The unfinished states that the gate's play from a reset goes through: the first, and after a look the second. */
  predicate HazardPath(c: HazardConfig, active: bool, w: HazardMaze) {
    && w.config == c && Playable(w) && !w.now.escaped && !w.now.terminal
    && if w.now.steps == 0 then w.now.sawHint == c.initialSawHint && w.now.hazardActive == (active && c.hazardPresent)
       else w.now.steps == 1 && MustLook(c, active) && w.now.sawHint && !w.now.hazardActive
  }

  /** Within eps where the hint is seen; elsewhere valid and above the block. */
  ghost predicate Reliable(predictor: Predictor<HazardMaze>, w: HazardMaze, eps: real) {
    if w.now.sawHint then Faithful(HAZARD, predictor, w, eps)
    else AboveBlock(HAZARD, predictor, w) && forall a :: a in Candidates(w) ==> ValidPrediction(predictor(w, a), 4)
  }

  /** While the hint is hidden every door is blocked, so the gate looks, with or without the veto. */
  lemma HazardLooksFirst(w: HazardMaze, mode: Mode, predictor: Predictor<HazardMaze>)
    requires Playable(w) && !w.now.escaped && !w.now.sawHint && mode in {Hybrid, HybridVeto}
    requires AboveBlock(HAZARD, predictor, w) && forall a :: a in Candidates(w) ==> ValidPrediction(predictor(w, a), 4)
    ensures Decide(HAZARD, mode, predictor, w) == Ok(Inspect)
  {
    Offered(w);
    assert RequiredAction(View(w)) == None;
    var rating := RatingAt(HAZARD, mode, predictor, w);
    forall b | b in Candidates(w) ensures rating(b).Ok? && (b != Inspect ==> rating(b).value < rating(Inspect).value) {
    }
    StrictlyBestIsChosen(rating, SpecsFor(w.build.specDoors), Candidates(w), Inspect);
  }

  /** What the gate does on the way: it looks as long as it must, then takes the right door. */
  lemma HazardDecides(c: HazardConfig, active: bool, w: HazardMaze, predictor: Predictor<HazardMaze>, eps: real)
    requires HazardPath(c, active, w) && Reliable(predictor, w, eps) && 0.0 <= eps <= 0.18375
    ensures Decide(HAZARD, HybridVeto, predictor, w)
         == Ok(if w.now.steps == 0 && MustLook(c, active) then Inspect else Move(c.targetColor))
  {
    if w.now.sawHint {
      HazardVetoFollowsExpert(w, predictor, eps);
    } else {
      HazardLooksFirst(w, HybridVeto, predictor);
    }
  }

  lemma LookGoesOn(c: HazardConfig, active: bool, w: HazardMaze)
    requires HazardPath(c, active, w) && w.now.steps == 0 && MustLook(c, active) && 2 <= c.maxSteps
    ensures Step(w, Inspect).Ok? && HazardPath(c, active, Step(w, Inspect).value.next)
    ensures Step(w, Inspect).value.next.now.steps == 1
  {
    Offered(w);
  }

  lemma DoorEscapes(c: HazardConfig, active: bool, w: HazardMaze)
    requires HazardPath(c, active, w) && (w.now.steps == 1 || !MustLook(c, active))
    ensures Step(w, Move(c.targetColor)).Ok?
    ensures var next := Step(w, Move(c.targetColor)).value.next; next.now.escaped && next.now.terminal
  {
    Offered(w);
  }

  /** The last step: the right door, once there is nothing more to look for. */
  lemma HazardDoorWins(c: HazardConfig, active: bool, w: HazardMaze, predictor: Predictor<HazardMaze>, eps: real)
    requires HazardPath(c, active, w) && Reliable(predictor, w, eps) && 0.0 <= eps <= 0.18375
    requires (w.now.steps == 1 || !MustLook(c, active)) && w.now.steps < c.maxSteps
    ensures WinsIn(HAZARD, GatePolicy(HAZARD, HybridVeto, predictor), w, 1)
  {
    DoorEscapes(c, active, w);
    HazardDecides(c, active, w, predictor, eps);
    HazardLawful();
    var policy := GatePolicy(HAZARD, HybridVeto, predictor);
    WinsAtOnce(HAZARD, policy, Step(w, Move(c.targetColor)).value.next);
    WinsAfter(HAZARD, policy, w, 0);
  }

  lemma HazardLookWins(c: HazardConfig, active: bool, w: HazardMaze, predictor: Predictor<HazardMaze>, eps: real)
    requires HazardPath(c, active, w) && w.now.steps == 0 && MustLook(c, active) && 2 <= c.maxSteps
    requires 0.0 <= eps <= 0.18375 && Reliable(predictor, w, eps)
      && Reliable(predictor, Step(w, Inspect).value.next, eps)
    ensures WinsIn(HAZARD, GatePolicy(HAZARD, HybridVeto, predictor), w, 2)
  {
    LookGoesOn(c, active, w);
    HazardDecides(c, active, w, predictor, eps);
    HazardDoorWins(c, active, Step(w, Inspect).value.next, predictor, eps);
    HazardLawful();
    WinsAfter(HAZARD, GatePolicy(HAZARD, HybridVeto, predictor), w, 1);
  }

  /** From every reset hybrid_veto escapes in two steps if it must look first, and else in one. */
  lemma HazardVetoWins(c: HazardConfig, active: bool, predictor: Predictor<HazardMaze>, eps: real)
    requires GoodConfig(c) && 0.0 <= eps <= 0.18375 && (if MustLook(c, active) then 2 else 1) <= c.maxSteps
    requires forall w: HazardMaze :: HazardPath(c, active, w) ==> Reliable(predictor, w, eps)
    ensures WinsIn(HAZARD, GatePolicy(HAZARD, HybridVeto, predictor), Start(c, active),
                   if MustLook(c, active) then 2 else 1)
  {
    var start := Start(c, active);
    assert HazardPath(c, active, start);
    if MustLook(c, active) {
      LookGoesOn(c, active, start);
      HazardLookWins(c, active, start, predictor, eps);
    } else {
      HazardDoorWins(c, active, start, predictor, eps);
    }
  }

  /** No sequence of actions escapes sooner. */
  lemma HazardShortest(c: HazardConfig, active: bool, actions: seq<Action>)
    requires GoodConfig(c)
    requires Follow(HAZARD, Start(c, active), actions).Ok?
    requires HAZARD.success(Follow(HAZARD, Start(c, active), actions).value)
    ensures |actions| >= if active && c.hazardPresent then 2 else 1
  {
    HazardLawful();
    NoShortcut(HAZARD, Start(c, active), actions);
  }

  /** With the hint seen, the prior of the right door and its match bonus outweigh inspect, unless
      hybrid's model puts that door below the block. */
  lemma HazardInspectLoses(w: HazardMaze, mode: Mode, predictor: Predictor<HazardMaze>)
    requires Playable(w) && !w.now.escaped && w.now.sawHint
    requires ValidPrediction(predictor(w, Inspect), 4) && ValidPrediction(predictor(w, Move(w.config.targetColor)), 4)
    requires mode == PriorOnly
          || (mode == Hybrid && ModelScore(View(w), predictor(w, Move(w.config.targetColor))) > -1000000.0)
    ensures var rating := RatingAt(HAZARD, mode, predictor, w);
      && rating(Inspect).Ok? && rating(Move(w.config.targetColor)).Ok?
      && rating(Inspect).value < rating(Move(w.config.targetColor)).value
  {
    var s, right := View(w), Move(w.config.targetColor);
    Offered(w);
    assert RequiredAction(s) == Some(right);
    assert !CompatibilityBlocked(SpecsFor(w.build.specDoors), s, right);
    assert CompatibilityBlocked(SpecsFor(w.build.specDoors), s, Inspect);
  }

  /** With the hint seen and the hazard active, prior_only and hybrid never inspect: in hybrid
      as long as the right door's model score stays above the block. */
  lemma HazardNotInspected(w: HazardMaze, mode: Mode, predictor: Predictor<HazardMaze>, a: Action)
    requires Playable(w) && !w.now.escaped && w.now.sawHint
    requires mode == PriorOnly || (mode == Hybrid && AboveBlock(HAZARD, predictor, w))
    requires Decide(HAZARD, mode, predictor, w) == Ok(a)
    ensures a.Move?
  {
    Offered(w);
    DecidedAmongValid(HAZARD, mode, predictor, w, a);
    HazardInspectLoses(w, mode, predictor);
  }

  predicate Endangered(c: HazardConfig, w: HazardMaze) {
    w.config == c && Playable(w) && w.now.sawHint && w.now.hazardActive && !w.now.escaped
  }

  /** Without the veto the active hazard is never cleared, whatever the predictor and the budget. */
  lemma HazardLivelock(c: HazardConfig, mode: Mode, predictor: Predictor<HazardMaze>)
    requires GoodConfig(c) && c.hazardPresent && c.initialSawHint
    requires mode == PriorOnly || mode == Hybrid
    requires mode == Hybrid ==> forall w: HazardMaze :: Endangered(c, w) ==> AboveBlock(HAZARD, predictor, w)
    ensures !EverWins(HAZARD, GatePolicy(HAZARD, mode, predictor), Start(c, true))
  {
    var region := (w: HazardMaze) => Endangered(c, w);
    var policy := GatePolicy(HAZARD, mode, predictor);
    forall w: HazardMaze | region(w) && policy(w).Ok? && HAZARD.step(w, policy(w).value).Ok?
      ensures region(HAZARD.step(w, policy(w).value).value.next)
    {
      HazardNotInspected(w, mode, predictor, policy(w).value);
    }
    ConfinedNeverWins(HAZARD, policy, region, Start(c, true), c.maxSteps);
  }

  /** While the hint is hidden the prior itself asks for inspect, which also clears the hazard;
      with the hint seen and no hazard it asks for the right door. */
  lemma HazardPriorFollows(w: HazardMaze, predictor: Predictor<HazardMaze>)
    requires Playable(w) && !w.now.escaped && !(w.now.sawHint && w.now.hazardActive)
    requires forall a :: a in Candidates(w) ==> ValidPrediction(predictor(w, a), 4)
    ensures Decide(HAZARD, PriorOnly, predictor, w)
         == Ok(if w.now.sawHint then Move(w.config.targetColor) else Inspect)
  {
    Offered(w);
    StrictlyBestIsChosen(RatingAt(HAZARD, PriorOnly, predictor, w), SpecsFor(w.build.specDoors), Candidates(w),
                         if w.now.sawHint then Move(w.config.targetColor) else Inspect);
  }

  /** prior_only wins the hazardous maze exactly when it does not start with the hint seen
      and the hazard active: the model is needed only where the prior is misled. */
  lemma HazardPriorWinsExactly(c: HazardConfig, active: bool, predictor: Predictor<HazardMaze>)
    requires GoodConfig(c) && c.maxSteps >= 2
    requires forall w: HazardMaze, a :: w.config == c && a in Candidates(w) ==> ValidPrediction(predictor(w, a), 4)
    ensures EverWins(HAZARD, GatePolicy(HAZARD, PriorOnly, predictor), Start(c, active))
       <==> !(active && c.hazardPresent && c.initialSawHint)
  {
    if active && c.hazardPresent && c.initialSawHint {
      HazardLivelock(c, PriorOnly, predictor);
    } else {
      var start := Start(c, active);
      HazardPriorWinsFrom(start, predictor, c.maxSteps);
      WinsWithin(HAZARD, GatePolicy(HAZARD, PriorOnly, predictor), start, c.maxSteps);
    }
  }

  lemma HazardPriorWinsFrom(w: HazardMaze, predictor: Predictor<HazardMaze>, left: nat)
    requires Playable(w) && !w.now.escaped && !w.now.terminal && !(w.now.sawHint && w.now.hazardActive)
    requires forall v: HazardMaze, a :: v.config == w.config && a in Candidates(v) ==>
      ValidPrediction(predictor(v, a), 4)
    requires (if w.now.sawHint then 1 else 2) <= left <= w.config.maxSteps - w.now.steps
    ensures HAZARD.success(Play(HAZARD, GatePolicy(HAZARD, PriorOnly, predictor), None, w, left).final)
    decreases !w.now.sawHint
  {
    HazardPriorStep(w, predictor);
    var policy := GatePolicy(HAZARD, PriorOnly, predictor);
    var next := Step(w, policy(w).value).value.next;
    PlayGoesOn(HAZARD, policy, w, left);
    if !w.now.sawHint {
      HazardPriorWinsFrom(next, predictor, left - 1);
    }
  }

  lemma HazardPriorStep(w: HazardMaze, predictor: Predictor<HazardMaze>)
    requires Playable(w) && !w.now.escaped && !(w.now.sawHint && w.now.hazardActive)
    requires forall a :: a in Candidates(w) ==> ValidPrediction(predictor(w, a), 4)
    ensures var choice := Decide(HAZARD, PriorOnly, predictor, w);
      && choice.Ok? && Step(w, choice.value).Ok?
      && var t := Step(w, choice.value).value;
         && Settled(w, t) && Playable(t.next)
         && (w.now.sawHint ==> t.next.now.escaped)
         && (!w.now.sawHint ==> t.next.now.sawHint && !t.next.now.hazardActive && !t.next.now.escaped)
  {
    HazardPriorFollows(w, predictor);
    Offered(w);
  }
}
