/** How the gate plays the tool chain with a precondition. */
module ToolPreconditionPlay {
  import opened Wrappers
  import opened Schema
  import opened Gate
  import opened Episodes
  import opened Accuracy
  import opened ToolPreconditionWorlds

  function Distance(w: GuardedChain): nat {
    if w.stage >= |w.sequence| then 0 else |w.sequence| - w.stage + (if w.preconditionReady then 0 else 1)
  }

  const GUARDED: Sim<GuardedChain> := Sim(
    Step, View, _ => SPECS, _ => CANDIDATES, Expert,
    (w: GuardedChain) => w.stage >= |w.sequence|, (w: GuardedChain) => w.steps, (w: GuardedChain) => w.maxSteps,
    Distance, Distance)

  lemma GuardedLawful()
    ensures GUARDED.Lawful()
  {
    forall w, a | GUARDED.step(w, a).Ok? ensures GUARDED.Settles(w, a) {
      assert Settled(w, Step(w, a).value);
    }
  }

  lemma Offered(w: GuardedChain)
    ensures CANDIDATES[0] == Use(Search) && Expert(w) in CANDIDATES && Use(Expected(w)) in CANDIDATES
    ensures Expected(w) != Search
    ensures forall a :: a in CANDIDATES ==> a.Use? && ValidAction(a, SPECS)
  {
    forall t: Tool ensures Use(t) in CANDIDATES {
      assert Use(t) == CANDIDATES[match t case Search => 0 case Read => 1 case Summarize => 2];
    }
  }

  lemma GuardedExpertApproaches(w: GuardedChain)
    requires w.stage < |w.sequence|
    ensures Nearer(GUARDED, w, Expert(w))
  {
    Offered(w);
  }

  function GuardedScore(mode: Mode, predictor: Predictor<GuardedChain>, w: GuardedChain, a: Action)
    : Result<real, GateError>
  {
    Rate(mode, SPECS, View(w), b => predictor(w, b), a)
  }

  /** What the accuracy of the predictor says about the model score of an action the gate looks at. */
  lemma GuardedScoreIsClose(w: GuardedChain, predictor: Predictor<GuardedChain>, eps: real, b: Action)
    requires w.stage < |w.sequence| && b in CANDIDATES && Faithful(GUARDED, predictor, w, eps)
    requires !HardBlocked(HybridVeto, SPECS, View(w), b)
    ensures ValidPrediction(predictor(w, b), |View(w).vector|) && Accurate(GUARDED, predictor, w, b, eps)
      && Step(w, b).Ok?
    ensures var t := Step(w, b).value;
      var base := t.reward + t.informationGain;
      ScoreBetween(View(w), predictor(w, b), base + 2.0 * (Progress(View(t.next)) - Progress(View(w))), eps)
      || ScoreBetween(View(w), predictor(w, b), base + 2.0 * VectorGain(View(w), View(t.next)), eps)
  {
    var t := Step(w, b).value;
    assert Accurate(GUARDED, predictor, w, b, eps);
    CloseScore(View(w), predictor(w, b), View(t.next), t.reward, t.informationGain, eps);
  }

  /** How far off the predictor may be: a read that is due rivals the setup more closely than one that is not. */
  function Tolerance(sequence: seq<Tool>): real
    requires sequence != []
  {
    if sequence[0] == Read then 0.0275 else 0.09
  }

  /** A chain that does not begin with read is a single summarize. */
  lemma ReadOrSummarize(w: GuardedChain)
    ensures w.sequence[0] == Read || (w.sequence == [Summarize] && Expected(w) == Summarize)
  {
  }

  /** What an action does to the progress, by either measure. */
  lemma GuardedGain(w: GuardedChain, b: Action)
    requires w.stage < |w.sequence| && b in CANDIDATES
    ensures Step(w, b).Ok?
    ensures var s, next := View(w), View(Step(w, b).value.next);
      && Progress(next) - Progress(s) == VectorGain(s, next)
      && if b == Use(Search) then VectorGain(s, next) == 0.0
         else if b == Use(Expected(w)) && w.preconditionReady then VectorGain(s, next) > 0.0
         else VectorGain(s, next) <= 0.0
  {
    Offered(w);
    RatioFalls(w.stage, |w.sequence|);
    RatioStep(w.stage, |w.sequence|);
  }

  lemma UnreadySearchScore(w: GuardedChain, predictor: Predictor<GuardedChain>, eps: real)
    requires w.stage < |w.sequence| && !w.preconditionReady
    requires 0.0 <= eps <= 0.09 && Faithful(GUARDED, predictor, w, eps)
    ensures var r := GuardedScore(HybridVeto, predictor, w, Use(Search)); r.Ok? && r.value >= -0.08 - 4.0 * eps
  {
    Offered(w);
    GuardedScoreIsClose(w, predictor, eps, Use(Search));
    GuardedGain(w, Use(Search));
  }

  lemma UnreadyOtherScores(w: GuardedChain, predictor: Predictor<GuardedChain>, eps: real, b: Action)
    requires w.stage < |w.sequence| && !w.preconditionReady
    requires 0.0 <= eps <= 0.09 && Faithful(GUARDED, predictor, w, eps)
    requires b in CANDIDATES && b != Use(Search)
    ensures var r := GuardedScore(HybridVeto, predictor, w, b);
      r.Ok? && r.value <= (if Expected(w) == Read then -0.3 else -0.8) + 4.0 * eps
  {
    Offered(w);
    if !HardBlocked(HybridVeto, SPECS, View(w), b) {
      GuardedScoreIsClose(w, predictor, eps, b);
      GuardedGain(w, b);
    }
  }

  /** Before the setup no other tool scores more than search. */
  lemma UnreadyScores(w: GuardedChain, predictor: Predictor<GuardedChain>, eps: real, b: Action)
    requires w.stage < |w.sequence| && !w.preconditionReady
    requires 0.0 <= eps <= 0.09 && Faithful(GUARDED, predictor, w, eps)
    requires b in CANDIDATES
    ensures var r := GuardedScore(HybridVeto, predictor, w, b);
      r.Ok? && if b == Use(Search) then r.value >= -0.08 - 4.0 * eps
               else r.value <= (if Expected(w) == Read then -0.3 else -0.8) + 4.0 * eps
  {
    if b == Use(Search) {
      UnreadySearchScore(w, predictor, eps);
    } else {
      UnreadyOtherScores(w, predictor, eps, b);
    }
  }

  /** After it, the expected tool scores above 0.85 and nothing else does. */
  lemma ReadyScores(w: GuardedChain, predictor: Predictor<GuardedChain>, eps: real, b: Action)
    requires w.stage < |w.sequence| && w.preconditionReady
    requires 0.0 <= eps <= 0.09 && Faithful(GUARDED, predictor, w, eps)
    requires b in CANDIDATES
    ensures var r := GuardedScore(HybridVeto, predictor, w, b);
      r.Ok? && if b == Use(Expected(w)) then r.value > 0.85 else r.value <= 0.85
  {
    Offered(w);
    if !HardBlocked(HybridVeto, SPECS, View(w), b) {
      GuardedScoreIsClose(w, predictor, eps, b);
      GuardedGain(w, b);
    }
  }

  /** hybrid_veto plays the expert's action in every unfinished state, for every such predictor. */
  lemma GuardedVetoFollowsExpert(w: GuardedChain, predictor: Predictor<GuardedChain>, eps: real)
    requires w.stage < |w.sequence| && 0.0 <= eps <= Tolerance(w.sequence) && Faithful(GUARDED, predictor, w, eps)
    ensures Decide(GUARDED, HybridVeto, predictor, w) == Ok(Expert(w))
  {
    Offered(w);
    ReadOrSummarize(w);
    var rating := RatingAt(GUARDED, HybridVeto, predictor, w);
    forall b | b in CANDIDATES
      ensures rating(b).Ok? && rating(b) == GuardedScore(HybridVeto, predictor, w, b)
    {
      if w.preconditionReady {
        ReadyScores(w, predictor, eps, b);
      } else {
        UnreadyScores(w, predictor, eps, b);
      }
    }
    if w.preconditionReady {
      forall b | b in CANDIDATES && b != Expert(w) ensures rating(b).value < rating(Expert(w)).value {
        ReadyScores(w, predictor, eps, b);
        ReadyScores(w, predictor, eps, Expert(w));
      }
      StrictlyBestIsChosen(rating, SPECS, CANDIDATES, Expert(w));
    } else {
      forall b | b in CANDIDATES ensures rating(b).value <= rating(Use(Search)).value {
        UnreadyScores(w, predictor, eps, b);
        UnreadyScores(w, predictor, eps, Use(Search));
      }
      FrontWinsTies(rating, SPECS, CANDIDATES);
    }
  }

  /** The states that the expert's play from a reset goes through. */
  predicate GuardedPath(sequence: seq<Tool>, maxSteps: int, w: GuardedChain) {
    && w.sequence == sequence && w.maxSteps == maxSteps
    && w.steps == (if w.preconditionReady then w.stage + 1 else 0)
    && (!w.preconditionReady ==> w.stage == 0)
    && (w.terminal <==> w.stage >= |sequence|)
  }

  lemma GuardedPathGoesOn(sequence: seq<Tool>, maxSteps: int, w: GuardedChain)
    requires 0 < |sequence| < maxSteps && GuardedPath(sequence, maxSteps, w) && w.stage < |sequence|
    ensures GuardedPath(sequence, maxSteps, Step(w, Expert(w)).value.next)
  {
  }

  /** From a reset, hybrid_veto finishes the chain in exactly one step more than it is long. */
  lemma GuardedVetoWins(sequence: seq<Tool>, maxSteps: int, predictor: Predictor<GuardedChain>, eps: real)
    requires 0 < |sequence| < maxSteps && ExecutionSequence(sequence) && 0.0 <= eps <= Tolerance(sequence)
    requires forall w: GuardedChain ::
      GuardedPath(sequence, maxSteps, w) && !w.terminal ==> Faithful(GUARDED, predictor, w, eps)
    ensures WinsIn(GUARDED, GatePolicy(GUARDED, HybridVeto, predictor), Start(sequence, maxSteps), |sequence| + 1)
  {
    var region := (w: GuardedChain) => GuardedPath(sequence, maxSteps, w);
    var policy := GatePolicy(GUARDED, HybridVeto, predictor);
    forall w: GuardedChain | region(w) && !GUARDED.success(w) ensures Progresses(GUARDED, policy, region, w) {
      GuardedVetoFollowsExpert(w, predictor, eps);
      GuardedExpertApproaches(w);
      GuardedPathGoesOn(sequence, maxSteps, w);
    }
    GuardedLawful();
    ApproachWins(GUARDED, policy, region, Start(sequence, maxSteps));
  }

  /** A predictor off by e in the worst direction for search and in the best for read. */
  function WorstForecast(e: real): Predictor<GuardedChain> {
    (w: GuardedChain, a: Action) =>
      if a == Use(Search) then Prediction(View(w).vector, 0.12 - e, false, 0.5, Some(0.0), Some(-e), Some(1.0 - e))
      else Prediction(View(w).vector, (if Expected(w) == Read then -0.3 else -0.1) + e, false, 0.5, Some(1.0), Some(e),
        Some(e))
  }

  /** Before the setup nothing leads away from stage 0. */
  lemma StaysAtStart(w: GuardedChain, a: Action)
    requires w.stage == 0 && !w.preconditionReady && a in CANDIDATES
    ensures Step(w, a).Ok?
    ensures var t := Step(w, a).value;
      && VectorGain(View(w), View(t.next)) == 0.0
      && t.reward == (if a == Use(Search) then 0.12 else if a == Use(Expected(w)) then -0.3 else -0.1)
      && t.informationGain == if a == Use(Search) then 1.0 else 0.0
  {
    Offered(w);
    assert Step(w, a).value.next.stage == 0;
  }

  lemma WorstForecastIsFaithful(w: GuardedChain, e: real, eps: real)
    requires w.stage == 0 && !w.preconditionReady && 0.0 <= e <= eps && e <= 0.1
    ensures Faithful(GUARDED, WorstForecast(e), w, eps)
  {
    Offered(w);
    var predictor := WorstForecast(e);
    forall a | a in CANDIDATES
      ensures ValidPrediction(predictor(w, a), |View(w).vector|)
      ensures a != Use(Summarize) ==> Accurate(GUARDED, predictor, w, a, eps)
    {
      if a != Use(Summarize) {
        StaysAtStart(w, a);
        assert PredictedGain(View(w), predictor(w, a)) == if a == Use(Search) then -e else e;
      }
    }
    assert HardBlocked(HybridVeto, SPECS, View(w), Use(Summarize));
  }

  /** Beyond the tolerance some predictor that close makes the gate read before the setup. */
  lemma WorstForecastMisleads(w: GuardedChain, e: real)
    requires w.stage == 0 && !w.preconditionReady && Tolerance(w.sequence) < e <= 0.1
    ensures Decide(GUARDED, HybridVeto, WorstForecast(e), w) == Ok(Use(Read))
  {
    Offered(w);
    ReadOrSummarize(w);
    assert Use(Read) == CANDIDATES[1];
    var rating := RatingAt(GUARDED, HybridVeto, WorstForecast(e), w);
    assert forall b :: b in CANDIDATES ==> ValidPrediction(WorstForecast(e)(w, b), |View(w).vector|);
    assert rating(Use(Search)).value == -0.08 - 4.0 * e;
    assert rating(Use(Read)).value == (if Expected(w) == Read then -0.3 else -0.8) + 4.0 * e;
    StrictlyBestIsChosen(rating, SPECS, CANDIDATES, Use(Read));
  }

  /** The gate plays the expert's action in every unfinished state of the chain, whatever predictor within eps it
      has. */
  ghost predicate AlwaysExpert(sequence: seq<Tool>, eps: real) {
    forall w: GuardedChain, predictor: Predictor<GuardedChain> ::
      w.sequence == sequence && w.stage < |sequence| && Faithful(GUARDED, predictor, w, eps) ==>
        Decide(GUARDED, HybridVeto, predictor, w) == Ok(Expert(w))
  }

  /** The tolerance is exact for every chain. */
  lemma GuardedToleranceIsExact(sequence: seq<Tool>, eps: real)
    requires 0 < |sequence| && ExecutionSequence(sequence) && 0.0 <= eps
    ensures AlwaysExpert(sequence, eps) <==> eps <= Tolerance(sequence)
  {
    if eps <= Tolerance(sequence) {
      forall w: GuardedChain, predictor: Predictor<GuardedChain> |
          w.sequence == sequence && w.stage < |sequence| && Faithful(GUARDED, predictor, w, eps)
        ensures Decide(GUARDED, HybridVeto, predictor, w) == Ok(Expert(w))
      {
        GuardedVetoFollowsExpert(w, predictor, eps);
      }
    } else {
      var w := Start(sequence, 1);
      var e := if eps < 0.1 then eps else 0.1;
      WorstForecastIsFaithful(w, e, eps);
      WorstForecastMisleads(w, e);
    }
  }

  /** No sequence of actions finishes the chain sooner. */
  lemma GuardedShortest(sequence: seq<Tool>, maxSteps: int, actions: seq<Action>)
    requires 0 < |sequence| && 0 < maxSteps && ExecutionSequence(sequence)
    requires Follow(GUARDED, Start(sequence, maxSteps), actions).Ok?
    requires GUARDED.success(Follow(GUARDED, Start(sequence, maxSteps), actions).value)
    ensures |actions| >= |sequence| + 1
  {
    GuardedLawful();
    NoShortcut(GUARDED, Start(sequence, maxSteps), actions);
  }

  /** Before the setup the expected tool outweighs every other in prior_only and hybrid. */
  lemma ExpectedBeats(w: GuardedChain, mode: Mode, predictor: Predictor<GuardedChain>, t: Tool)
    requires w.stage == 0 && !w.preconditionReady && t != Expected(w)
    requires mode == PriorOnly || (mode == Hybrid && AboveBlock(GUARDED, predictor, w))
    requires ValidPrediction(predictor(w, Use(t)), 4) && ValidPrediction(predictor(w, Use(Expected(w))), 4)
    ensures var rating := RatingAt(GUARDED, mode, predictor, w);
      && rating(Use(t)).Ok? && rating(Use(Expected(w))).Ok?
      && rating(Use(t)).value < rating(Use(Expected(w))).value
  {
    Offered(w);
    assert RequiredAction(View(w)) == Some(Use(Expected(w)));
    assert |View(w).vector| == 4;
  }

  /** Before the setup, prior_only and hybrid never search. */
  lemma GuardedNotSearched(w: GuardedChain, mode: Mode, predictor: Predictor<GuardedChain>, a: Action)
    requires w.stage == 0 && !w.preconditionReady
    requires mode == PriorOnly || (mode == Hybrid && AboveBlock(GUARDED, predictor, w))
    requires Decide(GUARDED, mode, predictor, w) == Ok(a)
    ensures a == Use(Expected(w))
  {
    Offered(w);
    DecidedAmongValid(GUARDED, mode, predictor, w, a);
    if a != Use(Expected(w)) {
      ExpectedBeats(w, mode, predictor, a.tool);
    }
  }

  lemma GuardedStaysUnready(w: GuardedChain, mode: Mode, predictor: Predictor<GuardedChain>, a: Action)
    requires w.stage == 0 && !w.preconditionReady
    requires mode == PriorOnly || (mode == Hybrid && AboveBlock(GUARDED, predictor, w))
    requires Decide(GUARDED, mode, predictor, w) == Ok(a) && Step(w, a).Ok?
    ensures var next := Step(w, a).value.next;
      next.stage == 0 && !next.preconditionReady && next.sequence == w.sequence && next.maxSteps == w.maxSteps
  {
    GuardedNotSearched(w, mode, predictor, a);
    assert Settled(w, Step(w, a).value);
  }

  predicate Unready(sequence: seq<Tool>, maxSteps: int, w: GuardedChain) {
    w.sequence == sequence && w.maxSteps == maxSteps && w.stage == 0 && !w.preconditionReady
  }

  /** Without the veto the precondition is never made ready, whatever the predictor and the budget. */
  lemma GuardedLivelock(sequence: seq<Tool>, maxSteps: int, mode: Mode, predictor: Predictor<GuardedChain>)
    requires 0 < |sequence| && 0 < maxSteps && ExecutionSequence(sequence)
    requires mode == PriorOnly || mode == Hybrid
    requires mode == Hybrid ==>
      forall w: GuardedChain :: Unready(sequence, maxSteps, w) ==> AboveBlock(GUARDED, predictor, w)
    ensures !EverWins(GUARDED, GatePolicy(GUARDED, mode, predictor), Start(sequence, maxSteps))
  {
    var region := (w: GuardedChain) => Unready(sequence, maxSteps, w);
    var policy := GatePolicy(GUARDED, mode, predictor);
    forall w: GuardedChain | region(w) && policy(w).Ok? && GUARDED.step(w, policy(w).value).Ok?
      ensures region(GUARDED.step(w, policy(w).value).value.next)
    {
      GuardedStaysUnready(w, mode, predictor, policy(w).value);
    }
    ConfinedNeverWins(GUARDED, policy, region, Start(sequence, maxSteps), maxSteps);
  }
}
