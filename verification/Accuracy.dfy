/** What it means for a predictor to be close to the world, and what that does to the model score. */
module Accuracy {
  import opened Wrappers
  import opened Schema
  import opened Gate
  import opened Episodes

  /** Progress as the counterfactual rows measure it. */
  function Progress(s: WorldState): real {
    match s.facts.family
    case MazeFacts(_, _, sawHint, escaped, _) => if escaped then 1.0 else if sawHint then 0.3 else 0.0
    case _ => s.facts.progressFraction
  }

  /** Change of the first vector entry, which a prediction without progress_delta is compared to. */
  function VectorGain(s: WorldState, next: WorldState): real {
    next.vector[0] - s.vector[0]
  }

  predicate Within(x: real, y: real, eps: real) {
    y - eps <= x <= y + eps
  }

  /** Reward, progress change and information gain are within eps of the true step. The
      progress change may follow either measure; the success probability is free. */
  predicate Close(s: WorldState, p: Prediction, next: WorldState, reward: real, informationGain: real, eps: real)
    requires ValidPrediction(p, |s.vector|)
  {
    var gain := PredictedGain(s, p);
    && Within(p.reward, reward, eps)
    && (Within(gain, Progress(next) - Progress(s), eps) || Within(gain, VectorGain(s, next), eps))
    && Within(p.informationGain.GetOr(0.0), informationGain, eps)
  }

  predicate Accurate<W(!new)>(sim: Sim<W>, predictor: Predictor<W>, w: W, a: Action, eps: real) {
    && ValidPrediction(predictor(w, a), |sim.view(w).vector|)
    && sim.step(w, a).Ok?
    && var t := sim.step(w, a).value;
       Close(sim.view(w), predictor(w, a), sim.view(t.next), t.reward, t.informationGain, eps)
  }

  /** Valid predictions everywhere, and accurate ones wherever the gate looks at them. */
  predicate Faithful<W(!new)>(sim: Sim<W>, predictor: Predictor<W>, w: W, eps: real) {
    forall a :: a in sim.candidates(w) ==>
      && ValidPrediction(predictor(w, a), |sim.view(w).vector|)
      && (!HardBlocked(HybridVeto, sim.specs(w), sim.view(w), a) ==> Accurate(sim, predictor, w, a, eps))
  }

  predicate ScoreBetween(s: WorldState, p: Prediction, base: real, eps: real)
    requires ValidPrediction(p, |s.vector|)
  {
    base - 4.0 * eps <= ModelScore(s, p) <= base + 0.5 + 4.0 * eps
  }

  /** An error of eps in every component moves the model score by at most 4 eps; the free
      success probability adds at most one half. */
  lemma CloseScore(s: WorldState, p: Prediction, next: WorldState, reward: real, informationGain: real, eps: real)
    requires ValidPrediction(p, |s.vector|) && Close(s, p, next, reward, informationGain, eps)
    ensures ScoreBetween(s, p, reward + 2.0 * (Progress(next) - Progress(s)) + informationGain, eps)
         || ScoreBetween(s, p, reward + 2.0 * VectorGain(s, next) + informationGain, eps)
  {
    assert 0.0 <= SuccessScore(p) <= 1.0;
  }

  /** Where the true information gain is 0 the error cannot lower it, so only 3 eps count downwards. */
  lemma CloseScoreFromBelow(s: WorldState, p: Prediction, next: WorldState, reward: real, eps: real)
    requires ValidPrediction(p, |s.vector|) && Close(s, p, next, reward, 0.0, eps)
    ensures ModelScore(s, p) >= reward + 2.0 * (Progress(next) - Progress(s)) - 3.0 * eps
         || ModelScore(s, p) >= reward + 2.0 * VectorGain(s, next) - 3.0 * eps
  {
    assert 0.0 <= SuccessScore(p) <= 1.0;
  }

  /** The predictor that is the world's own step. */
  function Truth<W(!new)>(sim: Sim<W>): Predictor<W> {
    (w: W, a: Action) => TrueForecast(sim, w, a)
  }

  function TrueForecast<W(!new)>(sim: Sim<W>, w: W, a: Action): Prediction {
    var s, stepped := sim.view(w), sim.step(w, a);
    if stepped.Err? then Prediction(s.vector, 0.0, false, 0.5, None, None, None) else
    var t := stepped.value;
    Prediction(sim.view(t.next).vector, t.reward, sim.view(t.next).terminal, 0.5, None,
               Some(VectorGain(s, sim.view(t.next))), Some(t.informationGain))
  }

  lemma TruthIsFaithful<W(!new)>(sim: Sim<W>, w: W, eps: real)
    requires 0.0 <= eps
    requires forall a :: a in sim.candidates(w) ==> sim.step(w, a).Ok? && InUnit(sim.step(w, a).value.informationGain)
    requires forall a :: a in sim.candidates(w) && sim.step(w, a).Ok? ==>
      |sim.view(sim.step(w, a).value.next).vector| == |sim.view(w).vector|
    ensures Faithful(sim, Truth(sim), w, eps)
  {
    forall a | a in sim.candidates(w)
      ensures ValidPrediction(Truth(sim)(w, a), |sim.view(w).vector|) && Accurate(sim, Truth(sim), w, a, eps)
    {
      assert Truth(sim)(w, a) == TrueForecast(sim, w, a);
    }
  }

  /** Whether a predictor is faithful at a state depends on its forecasts there only. */
  lemma SameForecasts<W(!new)>(sim: Sim<W>, p: Predictor<W>, q: Predictor<W>, w: W, eps: real)
    requires Faithful(sim, p, w, eps) && forall a :: a in sim.candidates(w) ==> q(w, a) == p(w, a)
    ensures Faithful(sim, q, w, eps)
  {
    forall a | a in sim.candidates(w)
      ensures ValidPrediction(q(w, a), |sim.view(w).vector|)
      ensures !HardBlocked(HybridVeto, sim.specs(w), sim.view(w), a) ==> Accurate(sim, q, w, a, eps)
    {
      assert q(w, a) == p(w, a);
    }
  }

  /** A predictor whose model scores stay above the block score. */
  predicate AboveBlock<W(!new)>(sim: Sim<W>, predictor: Predictor<W>, w: W) {
    forall a :: a in sim.candidates(w) && ValidPrediction(predictor(w, a), |sim.view(w).vector|) ==>
      ModelScore(sim.view(w), predictor(w, a)) > -1000000.0
  }

  /** A gate that decides has valid predictions for all candidates and a maximal choice. */
  lemma DecidedAmongValid<W(!new)>(sim: Sim<W>, mode: Mode, predictor: Predictor<W>, w: W, a: Action)
    requires forall b :: b in sim.candidates(w) ==> IsActionAllowed(b, sim.specs(w))
    requires Decide(sim, mode, predictor, w) == Ok(a)
    ensures a in sim.candidates(w)
    ensures forall b :: b in sim.candidates(w) ==> ValidPrediction(predictor(w, b), |sim.view(w).vector|)
    ensures var rating := RatingAt(sim, mode, predictor, w);
      forall b :: b in sim.candidates(w) ==> rating(b).Ok? && rating(a).Ok? && rating(b).value <= rating(a).value
  {
    ChoiceIsMaximal(RatingAt(sim, mode, predictor, w), sim.specs(w), sim.candidates(w), a);
  }
}
