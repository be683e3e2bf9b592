/** The action gate: a predictor's output plus a structural prior, scored in four modes. */
module Gate {
  import opened Wrappers
  import opened Schema

  const HARD_BLOCK_SCORE := -1000000.0
  const MATCH_BONUS := 1.0
  const MISMATCH_PENALTY := 1.2
  const INFORMATION_NEED_BONUS := 1.0
  const UNKNOWN_EXECUTION_PENALTY := 2.0
  const EARLY_FINISH_PENALTY := 2.0
  const RESET_PROGRESS_PENALTY := 0.8
  const BAD_REWARD_THRESHOLD := -0.05
  const BAD_PROGRESS_THRESHOLD := -0.05
  const STRONG_BAD_REWARD_THRESHOLD := -0.15
  const STRONG_BAD_PROGRESS_THRESHOLD := -0.10
  const MODEL_BAD_OUTCOME_PENALTY := 1.5
  const TERMINAL_SUCCESS_THRESHOLD := 0.5
  const BAD_TERMINAL_PENALTY := 1.5

  datatype Mode = ModelOnly | PriorOnly | Hybrid | HybridVeto

  datatype GateError = NoLegalAction | InvalidAction | InvalidPrediction

  function SpecOf(specs: Specs, a: Action): ActionSpec {
    if NameOf(a) in specs then specs[NameOf(a)] else ActionSpec()
  }

  /** The action the structure of the state asks for next, if it is visible. */
  function RequiredAction(s: WorldState): Option<Action> {
    if !s.facts.currentSlotKnown then None else
    var index := s.facts.currentIndex;
    match s.facts.family
    case LockFacts(code, visibleCode, _) =>
      var shown := if visibleCode != [] then visibleCode else code;
      if 0 <= index < |shown| && shown[index] != 0 then Some(Press(shown[index])) else None
    case ToolFacts(sequence, visibleSequence, requiredTool, _) =>
      if requiredTool.Some? then Some(Use(requiredTool.value))
      else if visibleSequence != [] then
        if 0 <= index < |visibleSequence| && visibleSequence[index].Some?
        then Some(Use(visibleSequence[index].value)) else None
      else if 0 <= index < |sequence| then Some(Use(sequence[index])) else None
    case MazeFacts(targetColor, visibleTargetColor, sawHint, _, _) =>
      if Named(visibleTargetColor) then Some(Move(visibleTargetColor))
      else if sawHint && Named(targetColor) then Some(Move(targetColor)) else None
  }

  predicate Named(color: string) {
    color != "" && color != "unknown"
  }

  predicate ExecutesCurrentSlot(s: WorldState, a: Action) {
    match s.facts.family
    case LockFacts(_, _, _) => a.Press?
    case ToolFacts(_, _, _, _) => a.Use?
    case MazeFacts(_, _, _, _, _) => a.Move?
  }

  predicate MatchesRequired(s: WorldState, a: Action) {
    RequiredAction(s) == Some(a)
  }

  /** Reward, progress, information and success, as the model predicts them. */
  function ModelScore(s: WorldState, p: Prediction): real
    requires ValidPrediction(p, |s.vector|)
  {
    p.reward + 2.0 * PredictedGain(s, p) + p.informationGain.GetOr(0.0) + 0.5 * SuccessScore(p)
  }

  function PredictedGain(s: WorldState, p: Prediction): real
    requires ValidPrediction(p, |s.vector|)
  {
    p.progressDelta.GetOr(p.nextVector[0] - s.vector[0])
  }

  function SuccessScore(p: Prediction): real {
    match p.successProbability
    case Some(q) => q
    case None => if p.terminal && 0.0 < p.reward then 1.0 else 0.0
  }

  function MatchGuard(specs: Specs, s: WorldState, a: Action): real {
    if RequiredAction(s).None? then 0.0
    else if MatchesRequired(s, a) then MATCH_BONUS
    else if ExecutesCurrentSlot(s, a) then -MISMATCH_PENALTY
    else 0.0
  }

  function UnknownSlotGuard(specs: Specs, s: WorldState, a: Action): real {
    var spec := SpecOf(specs, a);
    if RequiredAction(s).Some? then 0.0
    else if spec.revealsInformation then INFORMATION_NEED_BONUS
    else if spec.requiresKnownSlot || ExecutesCurrentSlot(s, a) then -UNKNOWN_EXECUTION_PENALTY
    else 0.0
  }

  function FinishGuard(specs: Specs, s: WorldState, a: Action): real {
    if SpecOf(specs, a).terminalOnly && !s.facts.canFinish then -EARLY_FINISH_PENALTY else 0.0
  }

  function ResetGuard(s: WorldState, a: Action): real {
    if a.Reset? && 0.0 < s.facts.progressFraction then -RESET_PROGRESS_PENALTY else 0.0
  }

  function Prior(specs: Specs, s: WorldState, a: Action): real {
    MatchGuard(specs, s, a) + UnknownSlotGuard(specs, s, a) + FinishGuard(specs, s, a) + ResetGuard(s, a)
  }

  predicate PostSetupRequired(s: WorldState) {
    && !(s.facts.family.MazeFacts? && s.facts.family.hazardActive == Some(true))
    && s.facts.setup.Some?
    && (s.facts.setup.value.postSetupState || s.facts.setup.value.setupState in {PostSetupDone, SafeNoHazard})
  }

  predicate StrongBadOutcome(p: Prediction) {
    p.reward < STRONG_BAD_REWARD_THRESHOLD && p.progressDelta.GetOr(0.0) < STRONG_BAD_PROGRESS_THRESHOLD
  }

  /** The penalty for a structurally right action whose predicted outcome is bad. */
  function ModelVeto(specs: Specs, s: WorldState, a: Action, p: Prediction): real {
    var compatible := MatchesRequired(s, a) && ExecutesCurrentSlot(s, a);
    var badOutcome := p.reward < BAD_REWARD_THRESHOLD || p.progressDelta.GetOr(0.0) < BAD_PROGRESS_THRESHOLD;
    var lenient := compatible && PostSetupRequired(s) && !StrongBadOutcome(p);
    var outcome := if compatible && badOutcome && !lenient then -MODEL_BAD_OUTCOME_PENALTY else 0.0;
    var unlikely := p.successProbability.Some? && p.successProbability.value < TERMINAL_SUCCESS_THRESHOLD;
    var ending := if SpecOf(specs, a).terminalOnly && unlikely && !lenient then -BAD_TERMINAL_PENALTY else 0.0;
    outcome + ending
  }

  predicate CompatibilityBlocked(specs: Specs, s: WorldState, a: Action) {
    var spec := SpecOf(specs, a);
    if spec.terminalOnly then !s.facts.canFinish
    else if RequiredAction(s).Some? then !MatchesRequired(s, a)
    else (spec.requiresKnownSlot || ExecutesCurrentSlot(s, a)) && !spec.revealsInformation
  }

  predicate VetoEscapeAllowed(specs: Specs, s: WorldState, a: Action) {
    && RequiredAction(s).Some?
    && SpecOf(specs, a).revealsInformation
    && (!ExecutesCurrentSlot(s, a) || (s.facts.setup.Some? && s.facts.setup.value.compatibleButBadAction))
  }

  predicate HardBlocked(mode: Mode, specs: Specs, s: WorldState, a: Action) {
    match mode
    case Hybrid => CompatibilityBlocked(specs, s, a)
    case HybridVeto => CompatibilityBlocked(specs, s, a) && !VetoEscapeAllowed(specs, s, a)
    case _ => false
  }

  function LegacyVisibilityGuard(specs: Specs, s: WorldState, a: Action): real {
    if !IsActionAllowed(a, specs) then 0.0 else
    var spec := SpecOf(specs, a);
    var blind := !s.facts.fullyVisible && !s.facts.currentSlotKnown;
    (if blind && spec.revealsInformation then 1.0 else 0.0)
    + (if blind && spec.requiresKnownSlot then -2.0 else 0.0)
    + (if spec.terminalOnly && !s.facts.isLastStepIndex then -2.0 else 0.0)
  }

  function Score(mode: Mode, specs: Specs, s: WorldState, a: Action, p: Prediction): real
    requires ValidPrediction(p, |s.vector|)
  {
    if HardBlocked(mode, specs, s, a) then HARD_BLOCK_SCORE + Prior(specs, s, a) else
    match mode
    case ModelOnly => ModelScore(s, p) + LegacyVisibilityGuard(specs, s, a)
    case PriorOnly => Prior(specs, s, a)
    case Hybrid => ModelScore(s, p) + Prior(specs, s, a)
    case HybridVeto => ModelScore(s, p) + Prior(specs, s, a) + ModelVeto(specs, s, a, p)
  }

  /** The predictor at one state: a prediction for each action. */
  type Forecast = Action -> Prediction

  /** What the scoring loop makes of one action: a score, or the contract it breaks. */
  type Rating = Action -> Result<real, GateError>

  function Rate(mode: Mode, specs: Specs, s: WorldState, forecast: Forecast, a: Action): Result<real, GateError> {
    if !ValidAction(a, specs) then Err(InvalidAction)
    else if !ValidPrediction(forecast(a), |s.vector|) then Err(InvalidPrediction)
    else Ok(Score(mode, specs, s, a, forecast(a)))
  }

  function RatingOf(mode: Mode, specs: Specs, s: WorldState, forecast: Forecast): Rating {
    a => Rate(mode, specs, s, forecast, a)
  }

  function Legal(candidates: seq<Action>, specs: Specs): seq<Action> {
    if candidates == [] then []
    else (if IsActionAllowed(candidates[0], specs) then [candidates[0]] else []) + Legal(candidates[1..], specs)
  }

  predicate AllRated(rating: Rating, actions: seq<Action>) {
    forall a :: a in actions ==> rating(a).Ok?
  }

  /** The choice as a fold: keep the best so far, replace it only by a strictly better one.
      The first action without a score ends the fold with its error. */
  function Best(rating: Rating, legal: seq<Action>): (best: Result<Action, GateError>)
    requires legal != []
    ensures best.Ok? ==> best.value in legal && rating(best.value).Ok?
    ensures best.Ok? <==> AllRated(rating, legal)
  {
    var last := legal[|legal| - 1];
    if |legal| == 1 then
      if rating(last).Ok? then Ok(last) else Err(rating(last).error)
    else
      var front := legal[..|legal| - 1];
      assert legal == front + [last];
      var best := Best(rating, front);
      if best.Err? then best
      else if rating(last).Err? then Err(rating(last).error)
      else if rating(best.value).value < rating(last).value then Ok(last)
      else best
  }

  function Choose(rating: Rating, specs: Specs, candidates: seq<Action>): Result<Action, GateError> {
    var legal := Legal(candidates, specs);
    if legal == [] then Err(NoLegalAction) else Best(rating, legal)
  }

  ghost predicate IsFirstStrictMaximum(rating: Rating, legal: seq<Action>, k: nat) {
    && k < |legal| && AllRated(rating, legal)
    && (forall i :: 0 <= i < k ==> rating(legal[i]).value < rating(legal[k]).value)
    && (forall i :: k < i < |legal| ==> rating(legal[i]).value <= rating(legal[k]).value)
  }

  /** The fold returns the first strict maximum, and nothing else can be that. */
  lemma {:induction false} BestIsFirstStrictMaximum(rating: Rating, legal: seq<Action>, k: nat)
    requires IsFirstStrictMaximum(rating, legal, k)
    ensures Best(rating, legal) == Ok(legal[k])
  {
    if |legal| > 1 {
      var front := legal[..|legal| - 1];
      assert legal == front + [legal[|legal| - 1]];
      if k < |legal| - 1 {
        BestIsFirstStrictMaximum(rating, front, k);
      }
    }
  }

  /** If every action has a score there is a first strict maximum. */
  lemma {:induction false} FirstStrictMaximumExists(rating: Rating, legal: seq<Action>) returns (k: nat)
    requires legal != [] && AllRated(rating, legal)
    ensures IsFirstStrictMaximum(rating, legal, k) && Best(rating, legal) == Ok(legal[k])
  {
    k := 0;
    if |legal| > 1 {
      var last, front := legal[|legal| - 1], legal[..|legal| - 1];
      assert legal == front + [last];
      k := FirstStrictMaximumExists(rating, front);
      if rating(front[k]).value < rating(last).value {
        k := |front|;
      }
    }
  }

  lemma {:induction false} BestIsMaximal(rating: Rating, legal: seq<Action>)
    requires legal != [] && AllRated(rating, legal)
    ensures Best(rating, legal).Ok?
    ensures forall a :: a in legal ==> rating(a).value <= rating(Best(rating, legal).value).value
  {
    if |legal| > 1 {
      var front := legal[..|legal| - 1];
      assert legal == front + [legal[|legal| - 1]];
      BestIsMaximal(rating, front);
    }
  }

  lemma {:induction false} LegalKeepsAll(candidates: seq<Action>, specs: Specs)
    requires forall a :: a in candidates ==> IsActionAllowed(a, specs)
    ensures Legal(candidates, specs) == candidates
  {
    if candidates != [] {
      LegalKeepsAll(candidates[1..], specs);
    }
  }

  /** An error in the middle of the list is the error of the whole fold. */
  lemma {:induction false} FirstErrorWins(rating: Rating, legal: seq<Action>, k: nat)
    requires k < |legal| && rating(legal[k]).Err? && AllRated(rating, legal[..k])
    ensures Best(rating, legal) == Err(rating(legal[k]).error)
  {
    if k < |legal| - 1 {
      assert legal[..|legal| - 1][..k] == legal[..k];
      FirstErrorWins(rating, legal[..|legal| - 1], k);
    } else if k > 0 {
      assert legal[..|legal| - 1] == legal[..k];
    }
  }

  /** The gate's loop over the legal candidates. */
  method FirstStrictMaximum(rating: Rating, legal: seq<Action>) returns (best: Result<Action, GateError>)
    requires legal != []
    ensures best == Best(rating, legal)
    ensures forall k: nat :: IsFirstStrictMaximum(rating, legal, k) ==> best == Ok(legal[k])
  {
    var chosen, bestScore := legal[0], 0.0;
    var i := 0;
    while i < |legal|
      invariant 0 <= i <= |legal|
      invariant AllRated(rating, legal[..i])
      invariant 0 < i ==> Best(rating, legal[..i]) == Ok(chosen) && rating(chosen) == Ok(bestScore)
    {
      var rated := rating(legal[i]);
      if rated.Err? {
        FirstErrorWins(rating, legal, i);
        return Err(rated.error);
      }
      assert legal[..i + 1] == legal[..i] + [legal[i]];
      if i == 0 || bestScore < rated.value {
        chosen, bestScore := legal[i], rated.value;
      }
      i := i + 1;
    }
    assert legal[..i] == legal;
    best := Ok(chosen);
    forall k: nat | IsFirstStrictMaximum(rating, legal, k) ensures best == Ok(legal[k]) {
      BestIsFirstStrictMaximum(rating, legal, k);
    }
  }

  method ChooseAction(mode: Mode, specs: Specs, s: WorldState, forecast: Forecast, candidates: seq<Action>)
    returns (decision: Result<Action, GateError>)
    ensures decision == Choose(RatingOf(mode, specs, s, forecast), specs, candidates)
  {
    var legal := Legal(candidates, specs);
    if legal == [] {
      return Err(NoLegalAction);
    }
    decision := FirstStrictMaximum(RatingOf(mode, specs, s, forecast), legal);
  }

  /** A candidate that beats every different candidate is the choice, wherever it stands. */
  lemma StrictlyBestIsChosen(rating: Rating, specs: Specs, candidates: seq<Action>, a: Action)
    requires a in candidates && AllRated(rating, candidates)
    requires forall b :: b in candidates ==> IsActionAllowed(b, specs)
    requires forall b :: b in candidates && b != a ==> rating(b).value < rating(a).value
    ensures Choose(rating, specs, candidates) == Ok(a)
  {
    LegalKeepsAll(candidates, specs);
    BestIsMaximal(rating, candidates);
  }

  /** A first candidate that no other beats is the choice: ties go to the front. */
  lemma FrontWinsTies(rating: Rating, specs: Specs, candidates: seq<Action>)
    requires candidates != [] && AllRated(rating, candidates)
    requires forall b :: b in candidates ==> IsActionAllowed(b, specs)
    requires forall b :: b in candidates ==> rating(b).value <= rating(candidates[0]).value
    ensures Choose(rating, specs, candidates) == Ok(candidates[0])
  {
    LegalKeepsAll(candidates, specs);
    BestIsFirstStrictMaximum(rating, candidates, 0);
  }

  /** The front is chosen exactly if no other beats it. */
  lemma FrontChosenExactly(rating: Rating, specs: Specs, candidates: seq<Action>)
    requires candidates != [] && AllRated(rating, candidates)
    requires forall b :: b in candidates ==> IsActionAllowed(b, specs)
    ensures Choose(rating, specs, candidates) == Ok(candidates[0])
       <==> forall b :: b in candidates ==> rating(b).value <= rating(candidates[0]).value
  {
    if forall b :: b in candidates ==> rating(b).value <= rating(candidates[0]).value {
      FrontWinsTies(rating, specs, candidates);
    } else if Choose(rating, specs, candidates) == Ok(candidates[0]) {
      ChoiceIsMaximal(rating, specs, candidates, candidates[0]);
    }
  }

  /** Whatever is chosen is a candidate that no candidate beats. */
  lemma ChoiceIsMaximal(rating: Rating, specs: Specs, candidates: seq<Action>, a: Action)
    requires forall b :: b in candidates ==> IsActionAllowed(b, specs)
    requires Choose(rating, specs, candidates) == Ok(a)
    ensures a in candidates && AllRated(rating, candidates)
    ensures forall b :: b in candidates ==> rating(b).value <= rating(a).value
  {
    LegalKeepsAll(candidates, specs);
    BestIsMaximal(rating, candidates);
  }

  // ---------- refusals ----------

  predicate Usable(specs: Specs, s: WorldState, forecast: Forecast, a: Action) {
    ValidAction(a, specs) && ValidPrediction(forecast(a), |s.vector|)
  }

  /** The gate decides exactly if some candidate is known and every known candidate is valid and validly predicted. It
      says so when no candidate is known, and else gives the first fault. */
  lemma GateRefusesExactly(mode: Mode, specs: Specs, s: WorldState, forecast: Forecast, candidates: seq<Action>)
    ensures var legal, choice := Legal(candidates, specs),
      Choose(RatingOf(mode, specs, s, forecast), specs, candidates);
      && (legal == [] ==> choice == Err(NoLegalAction))
      && (legal != [] ==> (choice.Ok? <==> forall a :: a in legal ==> Usable(specs, s, forecast, a)))
  {
    var legal, rating := Legal(candidates, specs), RatingOf(mode, specs, s, forecast);
    assert forall a :: rating(a).Ok? <==> Usable(specs, s, forecast, a);
  }

  lemma FirstFaultIsGiven(mode: Mode, specs: Specs, s: WorldState, forecast: Forecast, candidates: seq<Action>, k: nat)
    requires k < |Legal(candidates, specs)| && !Usable(specs, s, forecast, Legal(candidates, specs)[k])
    requires forall i :: 0 <= i < k ==> Usable(specs, s, forecast, Legal(candidates, specs)[i])
    ensures Choose(RatingOf(mode, specs, s, forecast), specs, candidates)
         == Err(if ValidAction(Legal(candidates, specs)[k], specs) then InvalidPrediction else InvalidAction)
  {
    var legal, rating := Legal(candidates, specs), RatingOf(mode, specs, s, forecast);
    FirstErrorWins(rating, legal, k);
  }

  lemma {:induction false} LegalIsKnown(candidates: seq<Action>, specs: Specs)
    ensures forall a :: a in Legal(candidates, specs) <==> a in candidates && NameOf(a) in specs
  {
    if candidates != [] {
      LegalIsKnown(candidates[1..], specs);
    }
  }

  // ---------- the gate without the prior ----------

  /** The model score, lowered by 2 for an action that only ends the play, away from the last slot. */
  function Lowered(specs: Specs, s: WorldState, p: Prediction, a: Action): real
    requires NameOf(a) in specs && ValidPrediction(p, |s.vector|)
  {
    ModelScore(s, p) - if specs[NameOf(a)].terminalOnly && !s.facts.isLastStepIndex then 2.0 else 0.0
  }

  /** Every candidate can be scored. */
  predicate AllUsable(specs: Specs, s: WorldState, forecast: Forecast, candidates: seq<Action>) {
    forall a :: a in candidates ==> ValidAction(a, specs) && ValidPrediction(forecast(a), |s.vector|)
  }

  ghost predicate LeadsLowered(specs: Specs, s: WorldState, forecast: Forecast, candidates: seq<Action>, k: nat)
    requires AllUsable(specs, s, forecast, candidates)
  {
    && k < |candidates|
    && (forall i :: 0 <= i < k ==>
          Lowered(specs, s, forecast(candidates[i]), candidates[i]) < Lowered(specs, s, forecast(candidates[k]),
            candidates[k]))
    && (forall i :: k < i < |candidates| ==>
          Lowered(specs, s, forecast(candidates[i]), candidates[i])
            <= Lowered(specs, s, forecast(candidates[k]), candidates[k]))
  }

  lemma ModelOnlyRating(specs: Specs, s: WorldState, forecast: Forecast, a: Action)
    requires s.facts.currentSlotKnown || s.facts.fullyVisible
    requires ValidAction(a, specs) && ValidPrediction(forecast(a), |s.vector|)
    ensures RatingOf(ModelOnly, specs, s, forecast)(a) == Ok(Lowered(specs, s, forecast(a), a))
  {
  }

  /** Where the current slot is known, model_only takes the first maximum of the lowered model scores: some candidate is
      that, and whichever is that is chosen. */
  lemma ModelOnlyTakesFirstMaximum(specs: Specs, s: WorldState, forecast: Forecast, candidates: seq<Action>)
      returns (k: nat)
    requires s.facts.currentSlotKnown || s.facts.fullyVisible
    requires candidates != [] && AllUsable(specs, s, forecast, candidates)
    ensures LeadsLowered(specs, s, forecast, candidates, k)
    ensures Choose(RatingOf(ModelOnly, specs, s, forecast), specs, candidates) == Ok(candidates[k])
  {
    var rating := RatingOf(ModelOnly, specs, s, forecast);
    forall a | a in candidates
      ensures IsActionAllowed(a, specs) && rating(a) == Ok(Lowered(specs, s, forecast(a), a))
    {
      ModelOnlyRating(specs, s, forecast, a);
    }
    LegalKeepsAll(candidates, specs);
    k := FirstStrictMaximumExists(rating, candidates);
    forall i | 0 <= i < |candidates| && i != k
      ensures rating(candidates[i]) == Ok(Lowered(specs, s, forecast(candidates[i]), candidates[i]))
      ensures rating(candidates[k]) == Ok(Lowered(specs, s, forecast(candidates[k]), candidates[k]))
    {
      assert candidates[i] in candidates && candidates[k] in candidates;
    }
  }
}
