/** How the gate plays the code lock: the prior alone opens it. */
module LockPlay {
  import opened Wrappers
  import opened Schema
  import opened Gate
  import opened Episodes
  import opened Accuracy
  import opened LockWorlds

  function LockDistance(w: Lock): nat {
    |w.code| - w.progress + Unknown(w.known, w.progress)
  }

  const LOCK: Sim<Lock> := Sim(
    Step, View, _ => SPECS, Candidates, Expert,
    (w: Lock) => w.progress >= |w.code|, (w: Lock) => w.steps, (w: Lock) => w.maxSteps,
    LockDistance, (w: Lock) => |w.code| - w.progress)

  lemma LockLawful()
    ensures LOCK.Lawful()
  {
    forall w, a | LOCK.step(w, a).Ok? ensures LOCK.Settles(w, a) {
      assert Settled(w, Step(w, a).value);
    }
  }

  /** A code can be typed exactly if the keypad has all its digits. */
  lemma TypableExactly(code: seq<int>)
    ensures Typable(code) <==> forall i :: 0 <= i < |code| ==> Press(code[i]) in LockWorlds.KEYPAD
  {
    forall i | 0 <= i < |code|
      ensures Press(code[i]) in LockWorlds.KEYPAD <==> 1 <= code[i] <= 4
    {
      assert LockWorlds.KEYPAD[0] == Press(1) && LockWorlds.KEYPAD[1] == Press(2);
      assert LockWorlds.KEYPAD[2] == Press(3) && LockWorlds.KEYPAD[3] == Press(4);
    }
  }

  lemma KeypadOffers(w: Lock)
    requires w.progress < |w.code| && Typable(w.code)
    ensures Expert(w) in Candidates(w)
    ensures forall a :: a in Candidates(w) ==> ValidAction(a, SPECS)
    ensures forall a :: a in Candidates(w) ==> a.Press? || a == Reset || (a == Inspect && !SlotKnown(w))
  {
    assert KEYPAD[w.code[w.progress] - 1] == Press(w.code[w.progress]);
    assert SlotKnown(w) || Candidates(w)[0] == Inspect;
    assert forall a :: a in Candidates(w) ==> a == Inspect || a in KEYPAD;
  }

  lemma LockExpertApproaches(w: Lock)
    requires w.progress < |w.code|
    ensures Nearer(LOCK, w, Expert(w))
  {
    if !SlotKnown(w) {
      UnknownAfterReveal(w.known, w.progress, w.progress);
    }
  }

  /** prior_only plays the expert's action in every unfinished state; so does hybrid where the
      slot is known, for every predictor whose scores stay above the block. */
  lemma LockPriorFollowsExpert(w: Lock, mode: Mode, predictor: Predictor<Lock>)
    requires w.progress < |w.code| && Typable(w.code)
    requires mode == PriorOnly || (mode == Hybrid && SlotKnown(w) && AboveBlock(LOCK, predictor, w))
    requires forall a :: a in Candidates(w) ==> ValidPrediction(predictor(w, a), 3)
    ensures Decide(LOCK, mode, predictor, w) == Ok(Expert(w))
  {
    KeypadOffers(w);
    var s := View(w);
    assert RequiredAction(s) == if SlotKnown(w) then Some(Expert(w)) else None;
    var rating := RatingAt(LOCK, mode, predictor, w);
    forall b | b in Candidates(w) ensures rating(b).Ok? {
    }
    forall b | b in Candidates(w) && b != Expert(w) ensures rating(b).value < rating(Expert(w)).value {
    }
    StrictlyBestIsChosen(rating, SPECS, Candidates(w), Expert(w));
  }

  /** The unfinished states of the episodes of one lock. */
  predicate InEpisode(code: seq<int>, maxSteps: int, w: Lock) {
    w.code == code && w.maxSteps == maxSteps && w.progress < |code|
  }

  /** prior_only opens a lock of any visibility in exactly n + u steps, with any valid predictor. */
  lemma LockPriorWins(code: seq<int>, maxSteps: int, visibility: Visibility, predictor: Predictor<Lock>)
    requires 0 < |code| && 0 < maxSteps && Typable(code)
    requires |code| + Unknown(InitialMask(visibility, |code|), 0) <= maxSteps
    requires forall w: Lock, a :: InEpisode(code, maxSteps, w) && a in Candidates(w) ==>
      ValidPrediction(predictor(w, a), 3)
    ensures WinsIn(LOCK, GatePolicy(LOCK, PriorOnly, predictor), Start(code, maxSteps, visibility),
                   |code| + Unknown(InitialMask(visibility, |code|), 0))
  {
    var region := (w: Lock) => w.code == code && w.maxSteps == maxSteps;
    var policy := GatePolicy(LOCK, PriorOnly, predictor);
    forall w: Lock | region(w) && !LOCK.success(w) ensures Progresses(LOCK, policy, region, w) {
      LockPriorFollowsExpert(w, PriorOnly, predictor);
      LockExpertApproaches(w);
      assert Settled(w, Step(w, Expert(w)).value);
    }
    LockLawful();
    ApproachWins(LOCK, policy, region, Start(code, maxSteps, visibility));
  }

  predicate AllKnown(w: Lock) {
    forall i :: 0 <= i < |w.known| ==> w.known[i]
  }

  lemma LockHybridAdvances(w: Lock, predictor: Predictor<Lock>)
    requires w.progress < |w.code| && Typable(w.code) && AllKnown(w) && AboveBlock(LOCK, predictor, w)
    requires forall a :: a in Candidates(w) ==> ValidPrediction(predictor(w, a), 3)
    ensures Decide(LOCK, Hybrid, predictor, w) == Ok(Expert(w)) && Nearer(LOCK, w, Expert(w))
    ensures var next := Step(w, Expert(w)).value.next;
      AllKnown(next) && next.code == w.code && next.maxSteps == w.maxSteps
  {
    LockPriorFollowsExpert(w, Hybrid, predictor);
    LockExpertApproaches(w);
    assert Settled(w, Step(w, Expert(w)).value);
  }

  /** hybrid opens a visible lock in exactly n steps, with any predictor above the block. */
  lemma LockHybridWinsVisible(code: seq<int>, maxSteps: int, predictor: Predictor<Lock>)
    requires 0 < |code| <= maxSteps && Typable(code)
    requires forall w: Lock :: InEpisode(code, maxSteps, w) ==> AboveBlock(LOCK, predictor, w)
    requires forall w: Lock, a :: InEpisode(code, maxSteps, w) && a in Candidates(w) ==>
      ValidPrediction(predictor(w, a), 3)
    ensures WinsIn(LOCK, GatePolicy(LOCK, Hybrid, predictor), Start(code, maxSteps, Visible), |code|)
  {
    var region := (w: Lock) => w.code == code && w.maxSteps == maxSteps && AllKnown(w);
    var policy := GatePolicy(LOCK, Hybrid, predictor);
    forall w: Lock | region(w) && !LOCK.success(w) ensures Progresses(LOCK, policy, region, w) {
      LockHybridAdvances(w, predictor);
    }
    LockLawful();
    var start := Start(code, maxSteps, Visible);
    NoneUnknown(start.known, 0);
    ApproachWins(LOCK, policy, region, start);
  }

  // ---------- the model alone before an unknown digit ----------

  predicate AllValid(w: Lock, predictor: Predictor<Lock>) {
    forall a :: a in Candidates(w) ==> ValidPrediction(predictor(w, a), 3)
  }

  /** No press scores more than 3 above inspect, and reset not more than 1. */
  predicate ModelLooks(w: Lock, predictor: Predictor<Lock>)
    requires ValidPrediction(predictor(w, Inspect), 3) && ValidPrediction(predictor(w, Reset), 3)
    requires forall d :: 1 <= d <= 4 ==> ValidPrediction(predictor(w, Press(d)), 3)
  {
    var look := ModelScore(View(w), predictor(w, Inspect)) + 1.0;
    && (forall d :: 1 <= d <= 4 ==> look >= ModelScore(View(w), predictor(w, Press(d))) - 2.0)
    && look >= ModelScore(View(w), predictor(w, Reset))
  }

  lemma HiddenKeypad(w: Lock)
    requires !SlotKnown(w)
    ensures Candidates(w) == [Inspect, Press(1), Press(2), Press(3), Press(4), Reset]
    ensures forall a :: a in Candidates(w) <==> a == Inspect || a == Reset || (a.Press? && 1 <= a.digit <= 4)
  {
    assert Candidates(w) == [Inspect, Press(1), Press(2), Press(3), Press(4), Reset];
    forall a ensures a in Candidates(w) <==> a == Inspect || a == Reset || (a.Press? && 1 <= a.digit <= 4) {
      if a.Press? && 1 <= a.digit <= 4 {
        assert Candidates(w)[a.digit] == a;
      }
      assert Candidates(w)[0] == Inspect && Candidates(w)[5] == Reset;
    }
  }

  lemma ModelOnlyScores(w: Lock, predictor: Predictor<Lock>, a: Action)
    requires !SlotKnown(w) && !w.visibility.Visible? && AllValid(w, predictor) && a in Candidates(w)
    ensures RatingAt(LOCK, ModelOnly, predictor, w)(a)
         == Ok(ModelScore(View(w), predictor(w, a)) + if a == Inspect then 1.0 else if a.Press? then -2.0 else 0.0)
  {
    HiddenKeypad(w);
  }

  lemma LookIsBest(w: Lock, predictor: Predictor<Lock>)
    requires !SlotKnown(w) && !w.visibility.Visible? && AllValid(w, predictor)
    ensures Inspect in Candidates(w) && Reset in Candidates(w) && forall d :: 1 <= d <= 4 ==> Press(d) in Candidates(w)
    ensures AllRated(RatingAt(LOCK, ModelOnly, predictor, w), Candidates(w))
    ensures var rating := RatingAt(LOCK, ModelOnly, predictor, w);
      (forall a :: a in Candidates(w) ==> rating(a).value <= rating(Inspect).value) <==> ModelLooks(w, predictor)
  {
    HiddenKeypad(w);
    var rating := RatingAt(LOCK, ModelOnly, predictor, w);
    forall a | a in Candidates(w)
      ensures rating(a) == Ok(ModelScore(View(w), predictor(w, a)) + if a == Inspect then 1.0 else if a.Press? then -2.0
        else 0.0)
    {
      ModelOnlyScores(w, predictor, a);
    }
    assert forall d :: 1 <= d <= 4 ==> Press(d) in Candidates(w);
  }

  /** In a lock that is not visible, model_only looks at an unknown digit exactly if no press is rated 3 more than
      looking, and reset not 1 more. */
  lemma LockModelOnlyLooksExactly(w: Lock, predictor: Predictor<Lock>)
    requires !SlotKnown(w) && !w.visibility.Visible? && AllValid(w, predictor)
    ensures Inspect in Candidates(w) && Reset in Candidates(w) && forall d :: 1 <= d <= 4 ==> Press(d) in Candidates(w)
    ensures Decide(LOCK, ModelOnly, predictor, w) == Ok(Inspect) <==> ModelLooks(w, predictor)
  {
    LookIsBest(w, predictor);
    HiddenKeypad(w);
    FrontChosenExactly(RatingAt(LOCK, ModelOnly, predictor, w), SPECS, Candidates(w));
  }

  // ---------- hybrid before an unknown digit ----------

  /** The model score of looking, with the bonus for information, is at least that of starting over. */
  predicate PrefersToLook(w: Lock, predictor: Predictor<Lock>)
    requires ValidPrediction(predictor(w, Inspect), 3) && ValidPrediction(predictor(w, Reset), 3)
  {
    ModelScore(View(w), predictor(w, Inspect)) + 1.0
      >= ModelScore(View(w), predictor(w, Reset)) - if w.progress > 0 then 0.8 else 0.0
  }

  /** The predictions for the candidates are valid and their scores above the block. */
  ghost predicate Sane(w: Lock, predictor: Predictor<Lock>) {
    (forall a :: a in Candidates(w) ==> ValidPrediction(predictor(w, a), 3)) && AboveBlock(LOCK, predictor, w)
  }

  /** The presses are blocked, reset is not: the gate looks exactly if it prefers to, and starts over otherwise. */
  lemma LockHybridLooksExactly(w: Lock, predictor: Predictor<Lock>)
    requires w.progress < |w.code| && !SlotKnown(w) && Typable(w.code) && Sane(w, predictor)
    ensures Inspect in Candidates(w) && Reset in Candidates(w)
    ensures Decide(LOCK, Hybrid, predictor, w) == Ok(if PrefersToLook(w, predictor) then Inspect else Reset)
  {
    KeypadOffers(w);
    assert RequiredAction(View(w)) == None;
    var rating := RatingAt(LOCK, Hybrid, predictor, w);
    assert Candidates(w)[0] == Inspect && Candidates(w)[5] == Reset;
    forall b | b in Candidates(w) ensures rating(b).Ok? {
    }
    forall b | b in Candidates(w) && b.Press?
      ensures rating(b).value < rating(Inspect).value && rating(b).value < rating(Reset).value
    {
    }
    if PrefersToLook(w, predictor) {
      FrontWinsTies(rating, SPECS, Candidates(w));
    } else {
      StrictlyBestIsChosen(rating, SPECS, Candidates(w), Reset);
    }
  }

  /** Hybrid never gains more than one step: it does not guess. */
  lemma LockHybridIsUnhurried(w: Lock, predictor: Predictor<Lock>)
    requires w.progress < |w.code| && Typable(w.code) && Sane(w, predictor)
    ensures var choice := Decide(LOCK, Hybrid, predictor, w);
      && choice.Ok? && Step(w, choice.value).Ok?
      && LockDistance(Step(w, choice.value).value.next) >= LockDistance(w) - 1
      && (Nearer(LOCK, w, choice.value) <==> choice == Ok(Expert(w)))
  {
    LockExpertApproaches(w);
    if SlotKnown(w) {
      LockPriorFollowsExpert(w, Hybrid, predictor);
    } else {
      LockHybridLooksExactly(w, predictor);
      ResetIsNotNearer(w);
    }
  }

  lemma ResetIsNotNearer(w: Lock)
    requires w.progress < |w.code|
    ensures Step(w, Reset).Ok? && LockDistance(Step(w, Reset).value.next) >= LockDistance(w)
  {
    UnknownFrom(w.known, 0, w.progress);
  }

  lemma {:induction false} UnknownFrom(known: seq<bool>, from: nat, to: nat)
    requires from <= to <= |known|
    ensures Unknown(known, from) >= Unknown(known, to)
    decreases |known| - from
  {
    if from < to {
      UnknownFrom(known, from + 1, to);
    }
  }

  /** Where the expert's first k actions lead. */
  function ExpertAfter(w: Lock, k: nat): Lock {
    if k == 0 then w else
    var before := ExpertAfter(w, k - 1);
    Step(before, Expert(before)).value.next
  }

  lemma {:induction false} ExpertArrives(w: Lock, k: nat)
    requires k <= LockDistance(w)
    ensures var v := ExpertAfter(w, k);
      v.code == w.code && v.maxSteps == w.maxSteps && v.steps == w.steps + k && LockDistance(v) == LockDistance(w) - k
  {
    if k > 0 {
      ExpertArrives(w, k - 1);
      LockExpertApproaches(ExpertAfter(w, k - 1));
      assert Settled(ExpertAfter(w, k - 1), Step(ExpertAfter(w, k - 1), Expert(ExpertAfter(w, k - 1))).value);
    }
  }

  predicate LooksIfHidden(w: Lock, predictor: Predictor<Lock>) {
    !SlotKnown(w) ==>
      && ValidPrediction(predictor(w, Inspect), 3) && ValidPrediction(predictor(w, Reset), 3)
      && PrefersToLook(w, predictor)
  }

  /** At every hidden state on the expert's way the predictor prefers to look. */
  ghost predicate LooksOnTheWay(start: Lock, predictor: Predictor<Lock>) {
    forall k: nat :: k < LockDistance(start) ==> LooksIfHidden(ExpertAfter(start, k), predictor)
  }

  lemma LockHybridFollowsExactly(w: Lock, predictor: Predictor<Lock>)
    requires w.progress < |w.code| && Typable(w.code) && Sane(w, predictor)
    ensures Decide(LOCK, Hybrid, predictor, w) == Ok(Expert(w)) <==> LooksIfHidden(w, predictor)
  {
    if SlotKnown(w) {
      LockPriorFollowsExpert(w, Hybrid, predictor);
    } else {
      LockHybridLooksExactly(w, predictor);
    }
  }

  predicate OfEpisode(code: seq<int>, maxSteps: int, w: Lock) {
    w.code == code && w.maxSteps == maxSteps
  }

  /** In every unfinished state of the lock's episodes the predictor is sane. */
  ghost predicate SaneThroughout(code: seq<int>, maxSteps: int, predictor: Predictor<Lock>) {
    forall w: Lock :: InEpisode(code, maxSteps, w) ==> Sane(w, predictor)
  }

  lemma ExpertGoesOn(start: Lock, k: nat)
    requires k < LockDistance(start)
    ensures var w := ExpertAfter(start, k);
      && InEpisode(start.code, start.maxSteps, w) && Nearer(LOCK, w, Expert(w))
      && Step(w, Expert(w)).value.next == ExpertAfter(start, k + 1)
      && ExpertAfter(start, k + 1).steps == start.steps + k + 1
  {
    ExpertArrives(start, k);
    ExpertArrives(start, k + 1);
    LockExpertApproaches(ExpertAfter(start, k));
  }

  predicate OnTheWay(start: Lock, w: Lock) {
    0 <= w.steps <= LockDistance(start) && w == ExpertAfter(start, w.steps)
  }

  lemma LookingDecides(start: Lock, predictor: Predictor<Lock>, k: nat)
    requires Typable(start.code) && k < LockDistance(start) && LooksIfHidden(ExpertAfter(start, k), predictor)
    requires SaneThroughout(start.code, start.maxSteps, predictor)
    ensures GatePolicy(LOCK, Hybrid, predictor)(ExpertAfter(start, k)) == Ok(Expert(ExpertAfter(start, k)))
  {
    ExpertGoesOn(start, k);
    LockHybridFollowsExactly(ExpertAfter(start, k), predictor);
  }

  lemma NextOnTheWay(start: Lock, w: Lock)
    requires start.steps == 0 && OnTheWay(start, w) && w.progress < |w.code|
    ensures w.steps < LockDistance(start) && Nearer(LOCK, w, Expert(w))
    ensures OnTheWay(start, Step(w, Expert(w)).value.next)
  {
    var k := w.steps;
    ExpertArrives(start, k);
    ExpertGoesOn(start, k);
    var next := Step(w, Expert(w)).value.next;
    assert next == ExpertAfter(start, k + 1) && next.steps == k + 1;
  }

  lemma LookingWins(start: Lock, predictor: Predictor<Lock>)
    requires start.steps == 0 && !start.terminal && Typable(start.code)
    requires 0 < LockDistance(start) <= start.maxSteps && LooksOnTheWay(start, predictor)
    requires SaneThroughout(start.code, start.maxSteps, predictor)
    ensures WinsIn(LOCK, GatePolicy(LOCK, Hybrid, predictor), start, LockDistance(start))
  {
    var policy, region := GatePolicy(LOCK, Hybrid, predictor), (w: Lock) => OnTheWay(start, w);
    forall w: Lock | region(w) && !LOCK.success(w) ensures Progresses(LOCK, policy, region, w) {
      NextOnTheWay(start, w);
      LookingDecides(start, predictor, w.steps);
    }
    LockLawful();
    ApproachWins(LOCK, policy, region, start);
  }

  lemma StepOfEpisode(w: Lock, a: Action)
    requires Step(w, a).Ok?
    ensures OfEpisode(w.code, w.maxSteps, Step(w, a).value.next)
    ensures w.progress >= |w.code| ==> LockDistance(w) == 0
  {
    assert Settled(w, Step(w, a).value);
  }

  lemma HybridStaysUnhurried(code: seq<int>, maxSteps: int, predictor: Predictor<Lock>, w: Lock)
    requires Typable(code) && OfEpisode(code, maxSteps, w) && SaneThroughout(code, maxSteps, predictor)
    ensures Unhurried(LOCK, GatePolicy(LOCK, Hybrid, predictor), v => OfEpisode(code, maxSteps, v), w)
  {
    var choice := GatePolicy(LOCK, Hybrid, predictor)(w);
    if choice.Ok? && Step(w, choice.value).Ok? {
      StepOfEpisode(w, choice.value);
      if InEpisode(code, maxSteps, w) {
        LockHybridIsUnhurried(w, predictor);
      }
    }
  }

  lemma HybridGoesOn(start: Lock, predictor: Predictor<Lock>, k: nat, choice: Result<Action, GateError>)
    requires Typable(start.code) && k < LockDistance(start) && SaneThroughout(start.code, start.maxSteps, predictor)
    requires choice == Decide(LOCK, Hybrid, predictor, ExpertAfter(start, k))
    ensures choice.Ok? && Nearer(LOCK, ExpertAfter(start, k), choice.value) ==>
      LOCK.step(ExpertAfter(start, k), choice.value).value.next == ExpertAfter(start, k + 1)
  {
    ExpertGoesOn(start, k);
    LockHybridIsUnhurried(ExpertAfter(start, k), predictor);
  }

  lemma HybridLeads(start: Lock, predictor: Predictor<Lock>, path: nat -> Lock, k: nat)
    requires start.steps == 0 && Typable(start.code) && k <= LockDistance(start) <= start.maxSteps
    requires SaneThroughout(start.code, start.maxSteps, predictor)
    requires forall i: nat :: path(i) == ExpertAfter(start, i)
    ensures OfEpisode(start.code, start.maxSteps, ExpertAfter(start, k))
    ensures Leads(LOCK, GatePolicy(LOCK, Hybrid, predictor), path, LockDistance(start), k)
  {
    ExpertArrives(start, k);
    if k < LockDistance(start) {
      HybridGoesOn(start, predictor, k, GatePolicy(LOCK, Hybrid, predictor)(path(k)));
    }
  }

  lemma NearerLooks(start: Lock, predictor: Predictor<Lock>, k: nat)
    requires Typable(start.code) && k < LockDistance(start) && SaneThroughout(start.code, start.maxSteps, predictor)
    requires var choice := Decide(LOCK, Hybrid, predictor, ExpertAfter(start, k));
      choice.Ok? && Nearer(LOCK, ExpertAfter(start, k), choice.value)
    ensures LooksIfHidden(ExpertAfter(start, k), predictor)
  {
    ExpertGoesOn(start, k);
    LockHybridIsUnhurried(ExpertAfter(start, k), predictor);
    LockHybridFollowsExactly(ExpertAfter(start, k), predictor);
  }

  lemma WinningLooks(start: Lock, predictor: Predictor<Lock>)
    requires start.steps == 0 && Typable(start.code) && LockDistance(start) <= start.maxSteps
    requires SaneThroughout(start.code, start.maxSteps, predictor)
    requires WinsIn(LOCK, GatePolicy(LOCK, Hybrid, predictor), start, LockDistance(start))
    ensures LooksOnTheWay(start, predictor)
  {
    var policy, n := GatePolicy(LOCK, Hybrid, predictor), LockDistance(start);
    var region, path := (v: Lock) => OfEpisode(start.code, start.maxSteps, v), (i: nat) => ExpertAfter(start, i);
    forall v | region(v) ensures Unhurried(LOCK, policy, region, v) {
      HybridStaysUnhurried(start.code, start.maxSteps, predictor, v);
    }
    forall i: nat | i <= n ensures Marks(LOCK, policy, region, path, n, i) {
      HybridLeads(start, predictor, path, i);
    }
    LockLawful();
    ExactWinFollows(LOCK, policy, region, path, n, n);
    forall k: nat | k < n ensures LooksIfHidden(ExpertAfter(start, k), predictor) {
      assert Follows(LOCK, policy, path, k);
      NearerLooks(start, predictor, k);
    }
  }

  /** From any state at which no step has been taken, so after a reset in any visibility, hybrid opens the lock in
      the expert's number of steps, as prior_only does, exactly if the predictor prefers to look wherever the expert
      would. */
  lemma LockHybridWinsExactly(start: Lock, predictor: Predictor<Lock>)
    requires start.steps == 0 && !start.terminal && Typable(start.code) && 0 < LockDistance(start) <= start.maxSteps
    requires SaneThroughout(start.code, start.maxSteps, predictor)
    ensures WinsIn(LOCK, GatePolicy(LOCK, Hybrid, predictor), start, LockDistance(start))
      <==> LooksOnTheWay(start, predictor)
  {
    if LooksOnTheWay(start, predictor) {
      LookingWins(start, predictor);
    } else if WinsIn(LOCK, GatePolicy(LOCK, Hybrid, predictor), start, LockDistance(start)) {
      WinningLooks(start, predictor);
    }
  }

  /** The first digit is unknown and nothing has been pressed. */
  predicate InFront(w: Lock) {
    w.progress == 0 && !SlotKnown(w)
  }

  lemma StaysInFront(code: seq<int>, maxSteps: int, w: Lock, predictor: Predictor<Lock>)
    requires Typable(code) && InEpisode(code, maxSteps, w) && InFront(w) && Sane(w, predictor)
      && !LooksIfHidden(w, predictor)
    ensures Decide(LOCK, Hybrid, predictor, w) == Ok(Reset)
    ensures Step(w, Reset).Ok?
    ensures var next := Step(w, Reset).value.next; InEpisode(code, maxSteps, next) && InFront(next)
  {
    LockHybridLooksExactly(w, predictor);
  }

  /** A predictor that prefers to start over before the first digit keeps hybrid there for ever. */
  lemma LockHybridCanStall(code: seq<int>, maxSteps: int, visibility: Visibility, predictor: Predictor<Lock>)
    requires 0 < |code| && 0 < maxSteps && Typable(code) && !InitialMask(visibility, |code|)[0]
    requires SaneThroughout(code, maxSteps, predictor)
    requires forall w: Lock :: InEpisode(code, maxSteps, w) && InFront(w) ==> !LooksIfHidden(w, predictor)
    ensures !EverWins(LOCK, GatePolicy(LOCK, Hybrid, predictor), Start(code, maxSteps, visibility))
  {
    var policy := GatePolicy(LOCK, Hybrid, predictor);
    var region := (w: Lock) => InEpisode(code, maxSteps, w) && InFront(w);
    forall v | region(v) ensures !LOCK.success(v) && Confines(LOCK, policy, region, v) {
      StaysInFront(code, maxSteps, v, predictor);
      assert policy(v) == Ok(Reset);
    }
    ConfinedLoses(LOCK, policy, region, Start(code, maxSteps, visibility));
  }

  /** Such a predictor: it expects a reward of 2 for a reset and nothing of the other actions. */
  function ResetLover(w: Lock, a: Action): Prediction {
    Prediction(View(w).vector, if a == Reset then 2.0 else 0.0, false, 1.0, None, Some(0.0), None)
  }

  lemma ResetLoverStalls(code: seq<int>, maxSteps: int)
    requires 0 < |code| && 0 < maxSteps && Typable(code)
    ensures SaneThroughout(code, maxSteps, ResetLover)
    ensures !EverWins(LOCK, GatePolicy(LOCK, Hybrid, ResetLover), Start(code, maxSteps, Hidden))
  {
    forall w: Lock | InEpisode(code, maxSteps, w) ensures Sane(w, ResetLover) {
    }
    forall w: Lock | InEpisode(code, maxSteps, w) && InFront(w) ensures !LooksIfHidden(w, ResetLover) {
    }
    LockHybridCanStall(code, maxSteps, Hidden, ResetLover);
  }

  /** From any state, no sequence of actions opens the lock in fewer steps than it has digits left. */
  lemma LockShortest(w: Lock, actions: seq<Action>)
    requires Follow(LOCK, w, actions).Ok? && LOCK.success(Follow(LOCK, w, actions).value)
    ensures |actions| >= |w.code| - w.progress
  {
    LockLawful();
    NoShortcut(LOCK, w, actions);
  }
}
