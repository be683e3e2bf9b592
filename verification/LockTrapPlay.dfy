/** How the gate plays the trapped lock. */
module LockTrapPlay {
  import opened Wrappers
  import opened Schema
  import opened Gate
  import opened Episodes
  import opened Accuracy
  import opened LockTrapWorlds

  function Distance(w: TrapLock): nat {
    if w.progress >= |w.code| then 0 else |w.code| - w.progress + (if w.trapArmed then 1 else 0)
  }

  const TRAP: Sim<TrapLock> := Sim(
    Step, View, _ => SPECS, _ => CANDIDATES, Expert,
    (w: TrapLock) => w.progress >= |w.code|, (w: TrapLock) => w.steps, (w: TrapLock) => w.maxSteps,
    Distance, Distance)

  lemma TrapLawful()
    ensures TRAP.Lawful()
  {
    forall w, a | TRAP.step(w, a).Ok? ensures TRAP.Settles(w, a) {
      var t := Step(w, a).value;
      assert Settled(w, t);
    }
  }

  lemma Offered(w: TrapLock)
    requires w.progress < |w.code| && Typable(w.code)
    ensures Press(w.code[w.progress]) in CANDIDATES && Expert(w) in CANDIDATES
    ensures forall a :: a in CANDIDATES ==> IsActionAllowed(a, SPECS)
  {
    assert CANDIDATES[w.code[w.progress]] == Press(w.code[w.progress]);
    assert CANDIDATES[0] == Inspect;
  }

  /** The expert's step always brings success nearer. */
  lemma TrapExpertApproaches(w: TrapLock)
    requires w.progress < |w.code|
    ensures Nearer(TRAP, w, Expert(w))
  {
  }

  function TrapScore(mode: Mode, predictor: Predictor<TrapLock>, w: TrapLock, a: Action): Result<real, GateError> {
    Rate(mode, SPECS, View(w), b => predictor(w, b), a)
  }

  /** How far off the predictor may be in a lock of n digits. The first bound is for the armed trap, where inspect
      must not score less than the punished digit; the second for the other steps, where a digit that does not yet
      open the lock must score more than inspect. */
  predicate Tolerated(n: int, eps: real)
    requires 0 < n
  {
    0.0 <= eps && 8.0 * eps <= 1.45 && (n > 1 ==> 7.0 * eps < 0.76 + 2.0 * Ratio(1, n))
  }

  /** In a lock of any length 7 eps may be up to 0.76. */
  lemma ToleratedAtAnyLength(n: int, eps: real)
    requires 0 < n && 0.0 <= eps && 7.0 * eps <= 0.76
    ensures Tolerated(n, eps)
  {
  }

  /** While the trap is armed inspect changes no progress, and the punished digit loses it all. */
  lemma TrapArmedGain(w: TrapLock, b: Action)
    requires w.progress < |w.code| && w.trapArmed && (b == Inspect || b == Press(w.code[w.progress]))
    ensures Step(w, b).Ok?
    ensures var s, next := View(w), View(Step(w, b).value.next);
      && Progress(next) - Progress(s) == VectorGain(s, next)
      && (if b == Inspect then VectorGain(s, next) == 0.0 else VectorGain(s, next) <= 0.0)
  {
    RatioFalls(w.progress, |w.code|);
  }

  lemma TrapArmedIsClose(w: TrapLock, predictor: Predictor<TrapLock>, eps: real, b: Action)
    requires w.progress < |w.code| && w.trapArmed && Typable(w.code) && b in CANDIDATES
    requires b == Inspect || b == Press(w.code[w.progress])
    requires 0.0 <= eps && Faithful(TRAP, predictor, w, eps)
    ensures ValidPrediction(predictor(w, b), 4)
    ensures var p := predictor(w, b);
      if b == Inspect then ModelScore(View(w), p) >= 1.1 - 4.0 * eps
      else ModelScore(View(w), p) <= 0.15 + 4.0 * eps && p.reward <= -0.35 + eps
  {
    assert RequiredAction(View(w)) == Some(Press(w.code[w.progress]));
    assert !HardBlocked(HybridVeto, SPECS, View(w), b);
    TrapArmedGain(w, b);
    assert Accurate(TRAP, predictor, w, b, eps);
    var t := Step(w, b).value;
    CloseScore(View(w), predictor(w, b), View(t.next), t.reward, t.informationGain, eps);
  }

  /** While the trap is armed inspect scores at least as much as any other candidate. */
  lemma TrapArmedScores(w: TrapLock, predictor: Predictor<TrapLock>, eps: real, b: Action)
    requires w.progress < |w.code| && w.trapArmed && Typable(w.code)
    requires 0.0 <= eps && 8.0 * eps <= 1.45 && Faithful(TRAP, predictor, w, eps)
    requires b in CANDIDATES
    ensures var r := TrapScore(HybridVeto, predictor, w, b);
      r.Ok? && if b == Inspect then r.value >= 1.1 - 4.0 * eps else r.value <= -0.35 + 4.0 * eps
  {
    assert RequiredAction(View(w)) == Some(Press(w.code[w.progress]));
    if b == Inspect || b == Press(w.code[w.progress]) {
      TrapArmedIsClose(w, predictor, eps, b);
    }
  }

  lemma RatioAdds(a: int, b: int)
    requires 0 < b
    ensures Ratio(a + 1, b) - Ratio(a, b) == Ratio(1, b) > 0.0
  {
  }

  /** Once it is disarmed the next digit scores more than inspect can reach. */
  lemma TrapRightDigitScore(w: TrapLock, predictor: Predictor<TrapLock>, eps: real)
    requires w.progress < |w.code| && !w.trapArmed && Typable(w.code)
    requires Tolerated(|w.code|, eps) && Faithful(TRAP, predictor, w, eps)
    ensures var r := TrapScore(HybridVeto, predictor, w, Expert(w)); r.Ok? && r.value > 0.49 + 4.0 * eps
  {
    var right := Expert(w);
    Offered(w);
    var pressed := Step(w, right).value;
    assert Accurate(TRAP, predictor, w, right, eps);
    CloseScoreFromBelow(View(w), predictor(w, right), View(pressed.next), pressed.reward, eps);
    RatioAdds(w.progress, |w.code|);
  }

  /** Once the trap is disarmed inspect changes nothing. */
  lemma TrapInspectGain(w: TrapLock)
    requires w.progress < |w.code| && !w.trapArmed
    ensures Step(w, Inspect).Ok?
    ensures var t := Step(w, Inspect).value;
      && Progress(View(t.next)) == Progress(View(w)) && VectorGain(View(w), View(t.next)) == 0.0
      && t.reward == -0.01 && t.informationGain == 0.0
  {
  }

  lemma TrapOtherScores(w: TrapLock, predictor: Predictor<TrapLock>, eps: real, b: Action)
    requires w.progress < |w.code| && !w.trapArmed && Typable(w.code)
    requires 0.0 <= eps && Faithful(TRAP, predictor, w, eps)
    requires b in CANDIDATES && b != Expert(w)
    ensures var r := TrapScore(HybridVeto, predictor, w, b); r.Ok? && r.value <= 0.49 + 4.0 * eps
  {
    if b == Inspect {
      TrapInspectGain(w);
      var inspected := Step(w, b).value;
      assert Accurate(TRAP, predictor, w, b, eps);
      CloseScore(View(w), predictor(w, b), View(inspected.next), inspected.reward, inspected.informationGain, eps);
    }
  }

  lemma TrapScores(w: TrapLock, predictor: Predictor<TrapLock>, eps: real, b: Action)
    requires w.progress < |w.code| && Typable(w.code) && b in CANDIDATES
    requires Tolerated(|w.code|, eps) && Faithful(TRAP, predictor, w, eps)
    ensures var score, best := TrapScore(HybridVeto, predictor, w, b), TrapScore(HybridVeto, predictor, w, Expert(w));
      && score.Ok? && best.Ok? && score.value <= best.value
      && (!w.trapArmed && b != Expert(w) ==> score.value < best.value)
  {
    if w.trapArmed {
      TrapArmedScores(w, predictor, eps, b);
      TrapArmedScores(w, predictor, eps, Inspect);
    } else {
      TrapRightDigitScore(w, predictor, eps);
      if b != Expert(w) {
        TrapOtherScores(w, predictor, eps, b);
      }
    }
  }

  /** hybrid_veto plays the expert's action in every unfinished state, for every such predictor. */
  lemma TrapVetoFollowsExpert(w: TrapLock, predictor: Predictor<TrapLock>, eps: real)
    requires w.progress < |w.code| && Typable(w.code)
    requires Tolerated(|w.code|, eps) && Faithful(TRAP, predictor, w, eps)
    ensures Decide(TRAP, HybridVeto, predictor, w) == Ok(Expert(w))
  {
    var rating := RatingAt(TRAP, HybridVeto, predictor, w);
    forall b | b in CANDIDATES
      ensures rating(b).Ok? && rating(Expert(w)).Ok? && rating(b).value <= rating(Expert(w)).value
      ensures !w.trapArmed && b != Expert(w) ==> rating(b).value < rating(Expert(w)).value
    {
      assert rating(b) == TrapScore(HybridVeto, predictor, w, b);
      assert rating(Expert(w)) == TrapScore(HybridVeto, predictor, w, Expert(w));
      TrapScores(w, predictor, eps, b);
    }
    Offered(w);
    if w.trapArmed {
      FrontWinsTies(rating, SPECS, CANDIDATES);
    } else {
      StrictlyBestIsChosen(rating, SPECS, CANDIDATES, Expert(w));
    }
  }

  /** Off by e in the worst direction for the expert's action and in the best for its rival: for inspect against the
      punished digit while the trap is armed, for the next digit against inspect once it is not. */
  function WorstForecast(e: real): Predictor<TrapLock> {
    (w: TrapLock, a: Action) =>
      if a == Inspect && w.trapArmed then Prediction(View(w).vector, 0.1 - e, false, 0.5, Some(0.0), Some(-e),
        Some(1.0 - e))
      else if a == Inspect then Prediction(View(w).vector, -0.01 + e, false, 0.5, Some(1.0), Some(e), Some(e))
      else if w.trapArmed then Prediction(View(w).vector, -0.35 + e, false, 0.5, Some(1.0), Some(e), Some(e))
      else Prediction(View(w).vector, 0.25 - e, false, 0.5, Some(0.0), Some(Ratio(1, |w.code|) - e), None)
  }

  /** The start, and the state after disarming a lock of more than one digit. */
  predicate Critical(w: TrapLock) {
    w.progress == 0 && Typable(w.code) && (w.trapArmed || |w.code| > 1)
  }

  lemma WorstForecastIsFaithful(w: TrapLock, e: real, eps: real)
    requires Critical(w) && 0.0 <= e <= eps && e <= 0.29
    ensures Faithful(TRAP, WorstForecast(e), w, eps)
  {
    Offered(w);
    RatioAdds(0, |w.code|);
    var predictor, right := WorstForecast(e), Press(w.code[0]);
    forall a | a in CANDIDATES
      ensures ValidPrediction(predictor(w, a), |View(w).vector|)
      ensures !HardBlocked(HybridVeto, SPECS, View(w), a) ==> Accurate(TRAP, predictor, w, a, eps)
    {
      assert !HardBlocked(HybridVeto, SPECS, View(w), a) ==> a == Inspect || a == right;
    }
  }

  /** The predictor forecasts like that one at the state. */
  predicate Forecasts(predictor: Predictor<TrapLock>, w: TrapLock, e: real) {
    forall a :: a in CANDIDATES ==> predictor(w, a) == WorstForecast(e)(w, a)
  }

  /** What the gate makes of such a predictor: it decides by the two scores. */
  lemma WorstForecastMisleads(w: TrapLock, predictor: Predictor<TrapLock>, e: real)
    requires Critical(w) && Forecasts(predictor, w, e) && 0.0 <= e <= 0.29
    requires if w.trapArmed then 8.0 * e > 1.45 else 7.0 * e >= 0.76 + 2.0 * Ratio(1, |w.code|)
    ensures Decide(TRAP, HybridVeto, predictor, w) != Ok(Expert(w))
  {
    Offered(w);
    WorstForecastScores(w, predictor, e);
    if Decide(TRAP, HybridVeto, predictor, w) == Ok(Expert(w)) {
      TrapChoiceBeatsFront(w, predictor);
    }
  }

  lemma WorstForecastScores(w: TrapLock, predictor: Predictor<TrapLock>, e: real)
    requires Critical(w) && Forecasts(predictor, w, e) && 0.0 <= e <= 0.29
    ensures var inspect, right := TrapScore(HybridVeto, predictor, w, Inspect),
                                  TrapScore(HybridVeto, predictor, w, Press(w.code[0]));
      && inspect == Ok(if w.trapArmed then 1.1 - 4.0 * e else 0.49 + 4.0 * e)
      && right == Ok(if w.trapArmed then -0.35 + 4.0 * e else 1.25 + 2.0 * Ratio(1, |w.code|) - 3.0 * e)
  {
    Offered(w);
    RatioAdds(0, |w.code|);
    assert RequiredAction(View(w)) == Some(Press(w.code[0]));
    assert Inspect == CANDIDATES[0] && predictor(w, Inspect) == WorstForecast(e)(w, Inspect);
    assert predictor(w, Press(w.code[0])) == WorstForecast(e)(w, Press(w.code[0]));
  }

  /** The chosen action is rated at least like all others, and more than inspect unless it is inspect. */
  lemma TrapChoiceBeatsFront(w: TrapLock, predictor: Predictor<TrapLock>)
    requires w.progress < |w.code| && Typable(w.code) && Decide(TRAP, HybridVeto, predictor, w).Ok?
    ensures var rating, a := RatingAt(TRAP, HybridVeto, predictor, w), Decide(TRAP, HybridVeto, predictor, w).value;
      && (forall b :: b in CANDIDATES ==> rating(b).Ok? && rating(a).Ok? && rating(b).value <= rating(a).value)
      && (a != Inspect ==> rating(Inspect).value < rating(a).value)
  {
    Offered(w);
    var rating := RatingAt(TRAP, HybridVeto, predictor, w);
    DecidedAmongValid(TRAP, HybridVeto, predictor, w, Decide(TRAP, HybridVeto, predictor, w).value);
    LegalKeepsAll(CANDIDATES, SPECS);
    var k := FirstStrictMaximumExists(rating, CANDIDATES);
    assert CANDIDATES[0] == Inspect;
  }

  /** The gate plays the expert's action in every unfinished state of the lock, whatever predictor within eps it has. */
  ghost predicate AlwaysExpert(code: seq<int>, eps: real) {
    forall w: TrapLock, predictor: Predictor<TrapLock> ::
      w.code == code && w.progress < |code| && Faithful(TRAP, predictor, w, eps) ==>
        Decide(TRAP, HybridVeto, predictor, w) == Ok(Expert(w))
  }

  /** The tolerance is exact for every code. */
  lemma TrapToleranceIsExact(code: seq<int>, eps: real)
    requires 0 < |code| && Typable(code) && 0.0 <= eps
    ensures AlwaysExpert(code, eps) <==> Tolerated(|code|, eps)
  {
    if Tolerated(|code|, eps) {
      forall w: TrapLock, predictor: Predictor<TrapLock> |
          w.code == code && w.progress < |code| && Faithful(TRAP, predictor, w, eps)
        ensures Decide(TRAP, HybridVeto, predictor, w) == Ok(Expert(w))
      {
        TrapVetoFollowsExpert(w, predictor, eps);
      }
    } else {
      var w := Start(code, 1).(trapArmed := 8.0 * eps > 1.45);
      var e := if eps < 0.29 then eps else 0.29;
      WorstForecastIsFaithful(w, e, eps);
      WorstForecastMisleads(w, WorstForecast(e), e);
    }
  }

  /** What every code that can be typed tolerates. */
  ghost predicate AlwaysExpertInAll(eps: real) {
    forall code: seq<int> :: 0 < |code| && Typable(code) ==> AlwaysExpert(code, eps)
  }

  /** Over codes of all lengths eps is tolerated exactly up to 0.76 / 7. */
  lemma TrapToleranceOverAll(eps: real)
    requires 0.0 <= eps
    ensures AlwaysExpertInAll(eps) <==> 7.0 * eps <= 0.76
  {
    if 7.0 * eps <= 0.76 {
      ShortEnough(eps);
    } else {
      var code := TooLong(eps);
      assert !AlwaysExpert(code, eps);
    }
  }

  lemma ShortEnough(eps: real)
    requires 0.0 <= eps && 7.0 * eps <= 0.76
    ensures AlwaysExpertInAll(eps)
  {
    forall code: seq<int> | 0 < |code| && Typable(code) ensures AlwaysExpert(code, eps) {
      ToleratedAtAnyLength(|code|, eps);
      TrapToleranceIsExact(code, eps);
    }
  }

  lemma TooLong(eps: real) returns (code: seq<int>)
    requires 7.0 * eps > 0.76
    ensures 0 < |code| && Typable(code) && !AlwaysExpert(code, eps)
  {
    var n := Exceeds(7.0 * eps - 0.76);
    code := seq(n, _ => 1);
    TrapToleranceIsExact(code, eps);
  }

  /** Some length n above 1 makes 2 / n at most x. */
  lemma Exceeds(x: real) returns (n: int)
    requires 0.0 < x
    ensures 1 < n && 2.0 * Ratio(1, n) <= x
  {
    var q := 2.0 / x;
    n := q.Floor + 2;
    InverseFalls(x, q, n as real);
  }

  lemma InverseFalls(x: real, q: real, n: real)
    requires 0.0 < x && q == 2.0 / x && q < n && 0.0 < n
    ensures 2.0 * (1.0 / n) <= x
  {
    var inverse := 1.0 / n;
    assert inverse * n == 1.0 && q * x == 2.0;
    if 2.0 * inverse > x {
      Product(2.0 * inverse - x, n);
      Product(n - q, x);
      assert false;
    }
  }

  lemma Product(a: real, b: real)
    requires 0.0 < a && 0.0 < b
    ensures 0.0 < a * b
  {
  }

  /** The states that the expert's play from a reset goes through. */
  predicate TrapPath(code: seq<int>, maxSteps: int, w: TrapLock) {
    && w.code == code && w.maxSteps == maxSteps
    && w.steps == (if w.trapArmed then 0 else w.progress + 1)
    && (w.trapArmed ==> w.progress == 0)
    && (w.terminal <==> w.progress >= |code|)
  }

  lemma TrapPathGoesOn(code: seq<int>, maxSteps: int, w: TrapLock)
    requires 0 < |code| < maxSteps && TrapPath(code, maxSteps, w) && w.progress < |code|
    ensures TrapPath(code, maxSteps, Step(w, Expert(w)).value.next)
  {
  }

  /** Within eps in every unfinished state on the expert's way from a reset. */
  ghost predicate FaithfulOnTheWay(code: seq<int>, maxSteps: int, predictor: Predictor<TrapLock>, eps: real) {
    forall w: TrapLock :: TrapPath(code, maxSteps, w) && !w.terminal ==> Faithful(TRAP, predictor, w, eps)
  }

  /** From a reset, hybrid_veto opens the trapped lock in exactly one step more than the code is long. */
  lemma TrapVetoWins(code: seq<int>, maxSteps: int, predictor: Predictor<TrapLock>, eps: real)
    requires 0 < |code| < maxSteps && Typable(code) && Tolerated(|code|, eps)
    requires FaithfulOnTheWay(code, maxSteps, predictor, eps)
    ensures WinsIn(TRAP, GatePolicy(TRAP, HybridVeto, predictor), Start(code, maxSteps), |code| + 1)
  {
    var region := (w: TrapLock) => TrapPath(code, maxSteps, w);
    var policy := GatePolicy(TRAP, HybridVeto, predictor);
    forall w: TrapLock | region(w) && !TRAP.success(w) ensures Progresses(TRAP, policy, region, w) {
      TrapVetoFollowsExpert(w, predictor, eps);
      TrapExpertApproaches(w);
      TrapPathGoesOn(code, maxSteps, w);
    }
    TrapLawful();
    ApproachWins(TRAP, policy, region, Start(code, maxSteps));
  }

  // ---------- no run tolerates more ----------

  /** The worst forecasts where they matter, and the truth everywhere else. */
  function Spoiler(e: real): Predictor<TrapLock> {
    (w: TrapLock, a: Action) => if Critical(w) then WorstForecast(e)(w, a) else Truth(TRAP)(w, a)
  }

  lemma SpoilerIsFaithful(code: seq<int>, maxSteps: int, e: real, eps: real)
    requires 0 < |code| && Typable(code) && 0.0 <= e <= eps && e <= 0.29
    ensures FaithfulOnTheWay(code, maxSteps, Spoiler(e), eps)
  {
    forall w: TrapLock | TrapPath(code, maxSteps, w) && !w.terminal ensures Faithful(TRAP, Spoiler(e), w, eps) {
      if Critical(w) {
        WorstForecastIsFaithful(w, e, eps);
        SameForecasts(TRAP, WorstForecast(e), Spoiler(e), w, eps);
      } else {
        TrapTruth(w, eps);
        SameForecasts(TRAP, Truth(TRAP), Spoiler(e), w, eps);
      }
    }
  }

  lemma TrapTruth(w: TrapLock, eps: real)
    requires w.progress < |w.code| && 0.0 <= eps
    ensures Faithful(TRAP, Truth(TRAP), w, eps)
  {
    forall a | a in CANDIDATES ensures TRAP.step(w, a).Ok? && InUnit(TRAP.step(w, a).value.informationGain) {
      assert a == Inspect || a == Reset || a.Press?;
    }
    TruthIsFaithful(TRAP, w, eps);
  }

  lemma TrapNeverHurries(policy: Policy<TrapLock>, w: TrapLock)
    ensures Unhurried(TRAP, policy, _ => true, w)
  {
    TrapLawful();
    if policy(w).Ok? && TRAP.step(w, policy(w).value).Ok? {
      assert TRAP.Settles(w, policy(w).value);
    }
  }

  /** Only the expert's action brings success nearer. */
  lemma OnlyExpertApproaches(w: TrapLock, a: Action)
    requires w.progress < |w.code| && Nearer(TRAP, w, a)
    ensures a == Expert(w)
  {
  }

  /** A run that wins in the fewest steps takes the expert's action wherever it is. */
  lemma WinningStep(w: TrapLock, predictor: Predictor<TrapLock>)
    requires w.progress < |w.code| && w.steps < w.maxSteps
    requires WinsIn(TRAP, GatePolicy(TRAP, HybridVeto, predictor), w, Distance(w))
    ensures Decide(TRAP, HybridVeto, predictor, w) == Ok(Expert(w)) && Step(w, Expert(w)).Ok?
    ensures var next := Step(w, Expert(w)).value.next;
      WinsIn(TRAP, GatePolicy(TRAP, HybridVeto, predictor), next, Distance(next))
  {
    var policy := GatePolicy(TRAP, HybridVeto, predictor);
    var region := (v: TrapLock) => true;
    forall v ensures Unhurried(TRAP, policy, region, v) {
      TrapNeverHurries(policy, v);
    }
    TrapLawful();
    ExactWinApproaches(TRAP, policy, region, w);
    OnlyExpertApproaches(w, policy(w).value);
  }

  lemma SpoilerFails(code: seq<int>, maxSteps: int, e: real)
    requires 0 < |code| < maxSteps && Typable(code) && 0.0 <= e <= 0.29 && !Tolerated(|code|, e)
    ensures !WinsIn(TRAP, GatePolicy(TRAP, HybridVeto, Spoiler(e)), Start(code, maxSteps), |code| + 1)
  {
    var start, predictor := Start(code, maxSteps), Spoiler(e);
    if WinsIn(TRAP, GatePolicy(TRAP, HybridVeto, predictor), start, |code| + 1) {
      WinningStep(start, predictor);
      if 8.0 * e > 1.45 {
        WorstForecastMisleads(start, predictor, e);
      } else {
        var disarmed := Step(start, Inspect).value.next;
        WinningStep(disarmed, predictor);
        WorstForecastMisleads(disarmed, predictor, e);
      }
    }
  }

  /** Every predictor within eps on the way wins in one step more than the code is long. */
  ghost predicate AlwaysWins(code: seq<int>, maxSteps: int, eps: real)
    requires 0 < |code| && 0 < maxSteps
  {
    forall predictor: Predictor<TrapLock> :: FaithfulOnTheWay(code, maxSteps, predictor, eps) ==>
      WinsIn(TRAP, GatePolicy(TRAP, HybridVeto, predictor), Start(code, maxSteps), |code| + 1)
  }

  /** The tolerance is exact for whole runs as well. */
  lemma TrapVetoWinsExactly(code: seq<int>, maxSteps: int, eps: real)
    requires 0 < |code| < maxSteps && Typable(code) && 0.0 <= eps
    ensures AlwaysWins(code, maxSteps, eps) <==> Tolerated(|code|, eps)
  {
    if Tolerated(|code|, eps) {
      forall predictor: Predictor<TrapLock> | FaithfulOnTheWay(code, maxSteps, predictor, eps)
        ensures WinsIn(TRAP, GatePolicy(TRAP, HybridVeto, predictor), Start(code, maxSteps), |code| + 1)
      {
        TrapVetoWins(code, maxSteps, predictor, eps);
      }
    } else {
      var e := if eps < 0.29 then eps else 0.29;
      HalfAtMost(|code|);
      SpoilerIsFaithful(code, maxSteps, e, eps);
      SpoilerFails(code, maxSteps, e);
    }
  }

  lemma HalfAtMost(n: int)
    requires 0 < n
    ensures n > 1 ==> Ratio(1, n) <= 0.5
  {
  }

  /** No sequence of actions opens the trapped lock sooner. */
  lemma TrapShortest(code: seq<int>, maxSteps: int, actions: seq<Action>)
    requires 0 < |code| && 0 < maxSteps
    requires Follow(TRAP, Start(code, maxSteps), actions).Ok?
    requires TRAP.success(Follow(TRAP, Start(code, maxSteps), actions).value)
    ensures |actions| >= |code| + 1
  {
    TrapLawful();
    NoShortcut(TRAP, Start(code, maxSteps), actions);
  }

  /** What prior_only and hybrid do while the trap is armed: they press the punished digit, in
      hybrid as long as its model score stays above the block. */
  lemma TrapArmedIsPressed(w: TrapLock, mode: Mode, predictor: Predictor<TrapLock>)
    requires w.trapArmed && w.progress == 0 && Typable(w.code)
    requires mode in {PriorOnly, Hybrid}
    requires forall a :: a in CANDIDATES ==> ValidPrediction(predictor(w, a), 4)
    requires mode == Hybrid ==>
      ModelScore(View(w), predictor(w, Press(w.code[0]))) > -1000001.0
    ensures Decide(TRAP, mode, predictor, w) == Ok(Press(w.code[0]))
  {
    var rating := RatingAt(TRAP, mode, predictor, w);
    var right := Press(w.code[0]);
    Offered(w);
    StrictlyBestIsChosen(rating, SPECS, CANDIDATES, right);
  }

  /** In hybrid the condition is exact: at or below the block the first candidate, inspect, is taken. */
  lemma TrapHybridEscapesExactly(w: TrapLock, predictor: Predictor<TrapLock>)
    requires w.trapArmed && w.progress == 0 && Typable(w.code)
    requires forall a :: a in CANDIDATES ==> ValidPrediction(predictor(w, a), 4)
    ensures Decide(TRAP, Hybrid, predictor, w) == Ok(Inspect)
       <==> ModelScore(View(w), predictor(w, Press(w.code[0]))) <= -1000001.0
  {
    if ModelScore(View(w), predictor(w, Press(w.code[0]))) > -1000001.0 {
      TrapArmedIsPressed(w, Hybrid, predictor);
    } else {
      var rating := RatingAt(TRAP, Hybrid, predictor, w);
      FrontWinsTies(rating, SPECS, CANDIDATES);
    }
  }

  /** So the trap stays armed and the progress stays 0, whatever the predictor says. */
  lemma TrapStaysArmed(w: TrapLock, mode: Mode, predictor: Predictor<TrapLock>, a: Action)
    requires w.trapArmed && w.progress == 0 && Typable(w.code)
    requires mode == PriorOnly || (mode == Hybrid && AboveBlock(TRAP, predictor, w))
    requires Decide(TRAP, mode, predictor, w) == Ok(a) && Step(w, a).Ok?
    ensures var next := Step(w, a).value.next;
      next.trapArmed && next.progress == 0 && next.code == w.code && next.maxSteps == w.maxSteps
  {
    Offered(w);
    DecidedAmongValid(TRAP, mode, predictor, w, a);
    TrapArmedIsPressed(w, mode, predictor);
  }

  predicate Trapped(code: seq<int>, maxSteps: int, w: TrapLock) {
    w.code == code && w.maxSteps == maxSteps && w.trapArmed && w.progress == 0
  }

  /** Without the veto the trapped lock is never opened, whatever the predictor and the budget. */
  lemma TrapLivelock(code: seq<int>, maxSteps: int, mode: Mode, predictor: Predictor<TrapLock>)
    requires 0 < |code| && 0 < maxSteps && Typable(code)
    requires mode == PriorOnly || mode == Hybrid
    requires mode == Hybrid ==> forall w: TrapLock :: Trapped(code, maxSteps, w) ==> AboveBlock(TRAP, predictor, w)
    ensures !EverWins(TRAP, GatePolicy(TRAP, mode, predictor), Start(code, maxSteps))
  {
    var region := (w: TrapLock) => Trapped(code, maxSteps, w);
    var policy := GatePolicy(TRAP, mode, predictor);
    forall w: TrapLock | region(w) && policy(w).Ok? && TRAP.step(w, policy(w).value).Ok?
      ensures region(TRAP.step(w, policy(w).value).value.next)
    {
      TrapStaysArmed(w, mode, predictor, policy(w).value);
    }
    ConfinedNeverWins(TRAP, policy, region, Start(code, maxSteps), maxSteps);
  }
}
