/** Episodes in any micro-world: a policy acts until the world is terminal or the budget is spent. */
module Episodes {
  import opened Wrappers
  import opened Schema
  import opened Gate

  /** A micro-world as the evaluator and the gate use it. distance is the number of steps
      informed play still needs; shortest is what no action reduces by more than one. */
  datatype Sim<!W(!new)> = Sim(
    step: (W, Action) -> Result<Transition<W>, StepError>,
    view: W -> WorldState,
    specs: W -> Specs,
    candidates: W -> seq<Action>,
    expert: W -> Action,
    success: W -> bool,
    steps: W -> int,
    maxSteps: W -> int,
    distance: W -> nat,
    shortest: W -> nat)
  {
    /** The terminal flag says what it should: success, or out of steps. */
    predicate Consistent(w: W) {
      view(w).terminal <==> success(w) || steps(w) >= maxSteps(w)
    }

    /** Both measures reach 0 exactly at success. */
    predicate Measured(w: W) {
      (success(w) <==> distance(w) == 0) && (success(w) <==> shortest(w) == 0)
    }

    predicate Settles(w: W, a: Action) {
      step(w, a).Ok? ==>
        var t := step(w, a).value;
        && Consistent(t.next)
        && steps(t.next) == steps(w) + 1
        && maxSteps(t.next) == maxSteps(w)
        && |view(t.next).vector| == |view(w).vector|
        && (t.success <==> success(t.next))
        && shortest(t.next) >= shortest(w) - 1
    }

    /** What every world's step keeps. */
    ghost predicate Lawful() {
      (forall w :: Measured(w)) && (forall w, a :: Settles(w, a))
    }
  }

  type Policy<!W> = W -> Result<Action, GateError>
  type Predictor<!W> = (W, Action) -> Prediction

  /** The agent that acts by the gate. */
  function GatePolicy<W(!new)>(sim: Sim<W>, mode: Mode, predictor: Predictor<W>): Policy<W> {
    w => Decide(sim, mode, predictor, w)
  }

  function RatingAt<W(!new)>(sim: Sim<W>, mode: Mode, predictor: Predictor<W>, w: W): Rating {
    RatingOf(mode, sim.specs(w), sim.view(w), a => predictor(w, a))
  }

  function Decide<W(!new)>(sim: Sim<W>, mode: Mode, predictor: Predictor<W>, w: W): Result<Action, GateError> {
    Choose(RatingAt(sim, mode, predictor, w), sim.specs(w), sim.candidates(w))
  }

  /** What one episode reports. A crash is an exception raised by the agent or the world. */
  datatype Outcome<W> = Outcome(steps: nat, reward: real, errors: seq<real>, final: W, crashed: bool)

  /** The square of the root-mean-square distance of two vectors. */
  function MeanSquare(left: seq<real>, right: seq<real>): real
    requires 0 < |left| == |right|
  {
    SquareSum(left, right) / |left| as real
  }

  function SquareSum(left: seq<real>, right: seq<real>): real
    requires |left| == |right|
  {
    if left == [] then 0.0
    else (left[0] - right[0]) * (left[0] - right[0]) + SquareSum(left[1..], right[1..])
  }

  /** One turn: the action, its prediction if there is a predictor, and the world's step. */
  datatype Turn<W> = Turn(transition: Transition<W>, errors: seq<real>)

  function TakeTurn<W(!new)>(sim: Sim<W>, policy: Policy<W>, predictor: Option<Predictor<W>>, w: W): Option<Turn<W>> {
    var choice := policy(w);
    if choice.Err? then None else
    var stepped := sim.step(w, choice.value);
    if stepped.Err? then None else
    var t := stepped.value;
    if predictor.None? then Some(Turn(t, [])) else
    var p := predictor.value(w, choice.value);
    var size := |sim.view(w).vector|;
    if !ValidPrediction(p, size) || |sim.view(t.next).vector| != size then None
    else Some(Turn(t, [MeanSquare(p.nextVector, sim.view(t.next).vector)]))
  }

  function Play<W(!new)>(sim: Sim<W>, policy: Policy<W>, predictor: Option<Predictor<W>>, w: W, left: nat): Outcome<W>
    decreases left
  {
    if sim.view(w).terminal || left == 0 then Outcome(0, 0.0, [], w, false) else
    match TakeTurn(sim, policy, predictor, w)
    case None => Outcome(0, 0.0, [], w, true)
    case Some(turn) =>
      var rest := Play(sim, policy, predictor, turn.transition.next, left - 1);
      Extend(1, turn.transition.reward, turn.errors, rest)
  }

  function Extend<W>(steps: nat, reward: real, errors: seq<real>, rest: Outcome<W>): Outcome<W> {
    Outcome(steps + rest.steps, reward + rest.reward, errors + rest.errors, rest.final, rest.crashed)
  }

  /** The totals so far and the play still to come make up the whole play. */
  predicate Ongoing<W(!new, ==)>(sim: Sim<W>, policy: Policy<W>, predictor: Option<Predictor<W>>, whole: Outcome<W>,
                            w: W, left: nat, steps: nat, reward: real, errors: seq<real>)
  {
    whole == Extend(steps, reward, errors, Play(sim, policy, predictor, w, left))
  }

  lemma OngoingTurn<W(!new)>(sim: Sim<W>, policy: Policy<W>, predictor: Option<Predictor<W>>, whole: Outcome<W>,
                             w: W, left: nat, turn: Turn<W>, steps: nat, reward: real, errors: seq<real>)
    requires Ongoing(sim, policy, predictor, whole, w, left + 1, steps, reward, errors)
    requires !sim.view(w).terminal && TakeTurn(sim, policy, predictor, w) == Some(turn)
    ensures Ongoing(sim, policy, predictor, whole, turn.transition.next, left,
                    steps + 1, reward + turn.transition.reward, errors + turn.errors)
  {
    var rest := Play(sim, policy, predictor, turn.transition.next, left);
    assert Play(sim, policy, predictor, w, left + 1) == Extend(1, turn.transition.reward, turn.errors, rest);
    assert (errors + turn.errors) + rest.errors == errors + (turn.errors + rest.errors);
  }

  /** An unfinished play goes on from where its next turn leads. */
  lemma PlayGoesOn<W(!new)>(sim: Sim<W>, policy: Policy<W>, w: W, left: nat)
    requires !sim.view(w).terminal && 0 < left && policy(w).Ok? && sim.step(w, policy(w).value).Ok?
    ensures Play(sim, policy, None, w, left).final
         == Play(sim, policy, None, sim.step(w, policy(w).value).value.next, left - 1).final
  {
    assert TakeTurn(sim, policy, None, w) == Some(Turn(sim.step(w, policy(w).value).value, []));
  }

  function RootSum(errors: seq<real>, root: real -> real): real {
    if errors == [] then 0.0 else root(errors[0]) + RootSum(errors[1..], root)
  }

  /** The reported prediction error: the average of the roots of the squared errors, if there are any. */
  function AverageError(errors: seq<real>, root: real -> real): Option<real> {
    if errors == [] then None else Some(RootSum(errors, root) / |errors| as real)
  }

  lemma {:induction false} RootSumOfZeros(errors: seq<real>, root: real -> real)
    requires root(0.0) == 0.0 && forall i :: 0 <= i < |errors| ==> errors[i] == 0.0
    ensures RootSum(errors, root) == 0.0
  {
    if errors != [] {
      RootSumOfZeros(errors[1..], root);
    }
  }

  /** Play that has no error reports none, or 0. */
  lemma NoErrorIsReported(errors: seq<real>, root: real -> real)
    requires root(0.0) == 0.0 && forall e :: e in errors ==> e == 0.0
    ensures AverageError(errors, root).GetOr(0.0) == 0.0
  {
    forall i | 0 <= i < |errors| ensures errors[i] == 0.0 {
      assert errors[i] in errors;
    }
    RootSumOfZeros(errors, root);
  }

  lemma {:induction false} RootSumBetween(errors: seq<real>, root: real -> real, low: real, high: real)
    requires forall i :: 0 <= i < |errors| ==> low <= root(errors[i]) <= high
    ensures low * |errors| as real <= RootSum(errors, root) <= high * |errors| as real
  {
    if errors != [] {
      RootSumBetween(errors[1..], root, low, high);
      assert low * |errors| as real == low + low * |errors[1..]| as real;
      assert high * |errors| as real == high + high * |errors[1..]| as real;
    }
  }

  /** There is a report exactly if there is an error, and it lies between the least and the greatest root. */
  lemma ReportIsBetween(errors: seq<real>, root: real -> real, low: real, high: real)
    requires forall i :: 0 <= i < |errors| ==> low <= root(errors[i]) <= high
    ensures AverageError(errors, root).Some? <==> errors != []
    ensures errors != [] ==> low <= AverageError(errors, root).value <= high
  {
    if errors != [] {
      RootSumBetween(errors, root, low, high);
      Mean(low, RootSum(errors, root), |errors| as real);
      Mean(high, RootSum(errors, root), |errors| as real);
    }
  }

  lemma Mean(x: real, sum: real, n: real)
    requires 0.0 < n
    ensures x * n <= sum ==> x <= sum / n
    ensures sum <= x * n ==> sum / n <= x
  {
    var mean := sum / n;
    assert mean * n == sum;
    assert (mean - x) * n == sum - x * n;
  }

  lemma {:induction false} SquaresBound(left: seq<real>, right: seq<real>, eps: real)
    requires |left| == |right| && 0.0 <= eps
    requires forall i :: 0 <= i < |left| ==> -eps <= left[i] - right[i] <= eps
    ensures SquareSum(left, right) <= eps * eps * |left| as real
  {
    if left != [] {
      SquaresBound(left[1..], right[1..], eps);
      SquareBelow(left[0] - right[0], eps);
      assert eps * eps * |left| as real == eps * eps + eps * eps * |left[1..]| as real;
    }
  }

  lemma SquareBelow(x: real, eps: real)
    requires -eps <= x <= eps
    ensures x * x <= eps * eps
  {
    assert (eps - x) * (eps + x) == eps * eps - x * x;
  }

  lemma {:induction false} SquaresVanish(left: seq<real>, right: seq<real>)
    requires |left| == |right|
    ensures 0.0 <= SquareSum(left, right)
    ensures SquareSum(left, right) == 0.0 <==> left == right
  {
    if left != [] {
      SquaresVanish(left[1..], right[1..]);
      SquareVanishes(left[0] - right[0]);
      assert left == [left[0]] + left[1..] && right == [right[0]] + right[1..];
    }
  }

  lemma SquareVanishes(d: real)
    ensures 0.0 <= d * d
    ensures d * d == 0.0 ==> d == 0.0
  {
    if d != 0.0 {
      var inverse := 1.0 / d;
      assert d * inverse == 1.0;
      assert (d * d) * inverse == d * (d * inverse);
    }
  }

  /** The error of a forecast vanishes exactly if it is right, and is at most the square of its greatest miss. */
  lemma ErrorMeasuresMiss(left: seq<real>, right: seq<real>, eps: real)
    requires 0 < |left| == |right| && 0.0 <= eps
    ensures MeanSquare(left, right) == 0.0 <==> left == right
    ensures (forall i :: 0 <= i < |left| ==> -eps <= left[i] - right[i] <= eps)
        ==> 0.0 <= MeanSquare(left, right) <= eps * eps
  {
    var n := |left| as real;
    SquaresVanish(left, right);
    assert SquareSum(left, right) == MeanSquare(left, right) * n;
    if forall i :: 0 <= i < |left| ==> -eps <= left[i] - right[i] <= eps {
      SquaresBound(left, right, eps);
      Mean(eps * eps, SquareSum(left, right), n);
      Mean(0.0, SquareSum(left, right), n);
    }
  }

  /** The evaluator's loop, from a world that has just been reset. root is the square root. */
  method RunEpisode<W(!new)>(sim: Sim<W>, policy: Policy<W>, predictor: Option<Predictor<W>>, root: real -> real,
      start: W)
    returns (outcome: Outcome<W>, error: Option<real>)
    ensures outcome == Play(sim, policy, predictor, start, Max(0, sim.maxSteps(start)))
    ensures error == AverageError(outcome.errors, root)
  {
    var world, steps, reward, errors := start, 0, 0.0, [];
    var budget := Max(0, sim.maxSteps(start));
    ghost var whole := Play(sim, policy, predictor, start, budget);
    OngoingStart(sim, policy, predictor, start, budget);
    while !sim.view(world).terminal && steps < budget
      invariant 0 <= steps <= budget
      invariant Ongoing(sim, policy, predictor, whole, world, budget - steps, steps, reward, errors)
    {
      var turn := TakeTurn(sim, policy, predictor, world);
      if turn.None? {
        OngoingEnds(sim, policy, predictor, whole, world, budget - steps, steps, reward, errors);
        return Outcome(steps, reward, errors, world, true), AverageError(errors, root);
      }
      OngoingTurn(sim, policy, predictor, whole, world, budget - steps - 1, turn.value, steps, reward, errors);
      reward, errors := reward + turn.value.transition.reward, errors + turn.value.errors;
      world, steps := turn.value.transition.next, steps + 1;
    }
    OngoingEnds(sim, policy, predictor, whole, world, budget - steps, steps, reward, errors);
    outcome, error := Outcome(steps, reward, errors, world, false), AverageError(errors, root);
  }

  lemma OngoingStart<W(!new)>(sim: Sim<W>, policy: Policy<W>, predictor: Option<Predictor<W>>, start: W, budget: nat)
    ensures Ongoing(sim, policy, predictor, Play(sim, policy, predictor, start, budget), start, budget, 0, 0.0, [])
  {
    var whole := Play(sim, policy, predictor, start, budget);
    assert [] + whole.errors == whole.errors;
  }

  lemma OngoingEnds<W(!new)>(sim: Sim<W>, policy: Policy<W>, predictor: Option<Predictor<W>>, whole: Outcome<W>,
                             w: W, left: nat, steps: nat, reward: real, errors: seq<real>)
    requires Ongoing(sim, policy, predictor, whole, w, left, steps, reward, errors)
    requires sim.view(w).terminal || left == 0 || TakeTurn(sim, policy, predictor, w).None?
    ensures whole == Outcome(steps, reward, errors, w, !(sim.view(w).terminal || left == 0))
  {
    assert errors + [] == errors;
  }

  /** The play that the remaining step budget allows. */
  function Rollout<W(!new)>(sim: Sim<W>, policy: Policy<W>, w: W): Outcome<W> {
    Play(sim, policy, None, w, Max(0, sim.maxSteps(w) - sim.steps(w)))
  }

  /** The episode ends in success after exactly k steps. */
  predicate WinsIn<W(!new)>(sim: Sim<W>, policy: Policy<W>, w: W, k: nat) {
    var o := Rollout(sim, policy, w);
    !o.crashed && o.steps == k && sim.success(o.final)
  }

  predicate EverWins<W(!new)>(sim: Sim<W>, policy: Policy<W>, w: W) {
    sim.success(Rollout(sim, policy, w).final)
  }

  /** A step that leads to a state from which the policy wins in k steps wins in k + 1. */
  lemma WinsAfter<W(!new)>(sim: Sim<W>, policy: Policy<W>, w: W, k: nat)
    requires sim.Lawful() && !sim.view(w).terminal && sim.steps(w) < sim.maxSteps(w)
    requires policy(w).Ok? && sim.step(w, policy(w).value).Ok?
    requires WinsIn(sim, policy, sim.step(w, policy(w).value).value.next, k)
    ensures WinsIn(sim, policy, w, k + 1)
  {
    var t := sim.step(w, policy(w).value).value;
    assert sim.Settles(w, policy(w).value);
    assert TakeTurn(sim, policy, None, w) == Some(Turn(t, []));
  }

  lemma WinsAtOnce<W(!new)>(sim: Sim<W>, policy: Policy<W>, w: W)
    requires sim.success(w) && sim.view(w).terminal
    ensures WinsIn(sim, policy, w, 0)
  {
  }

  lemma WinsWithin<W(!new)>(sim: Sim<W>, policy: Policy<W>, w: W, left: nat)
    requires left == sim.maxSteps(w) - sim.steps(w) && sim.success(Play(sim, policy, None, w, left).final)
    ensures EverWins(sim, policy, w)
  {
  }

  /** The action is legal here and brings success one step nearer. */
  predicate Nearer<W(!new)>(sim: Sim<W>, w: W, a: Action) {
    sim.step(w, a).Ok? && sim.distance(sim.step(w, a).value.next) == sim.distance(w) - 1
  }

  /** Inside the region the policy always steps nearer to success, and stays inside. */
  ghost predicate Progresses<W(!new)>(sim: Sim<W>, policy: Policy<W>, region: W -> bool, v: W) {
    && policy(v).Ok?
    && Nearer(sim, v, policy(v).value)
    && region(sim.step(v, policy(v).value).value.next)
  }

  /** A policy that approaches success wherever it goes wins in exactly the distance. */
  lemma ApproachWins<W(!new)>(sim: Sim<W>, policy: Policy<W>, region: W -> bool, w: W)
    requires sim.Lawful() && region(w) && sim.Consistent(w)
    requires sim.distance(w) <= sim.maxSteps(w) - sim.steps(w)
    requires forall v :: region(v) && !sim.success(v) ==> Progresses(sim, policy, region, v)
    ensures WinsIn(sim, policy, w, sim.distance(w))
  {
    var left := sim.maxSteps(w) - sim.steps(w);
    ApproachPlay(sim, policy, region, w, left);
    assert Rollout(sim, policy, w) == Play(sim, policy, None, w, left);
  }

  /** One turn of an approaching policy. */
  lemma ApproachTurn<W(!new)>(sim: Sim<W>, policy: Policy<W>, region: W -> bool, w: W, left: nat) returns (next: W)
    requires sim.Lawful() && sim.Consistent(w) && !sim.success(w)
    requires sim.distance(w) <= left == sim.maxSteps(w) - sim.steps(w)
    requires Progresses(sim, policy, region, w)
    ensures 0 < left && region(next) && sim.Consistent(next) && sim.distance(next) == sim.distance(w) - 1
    ensures sim.maxSteps(next) - sim.steps(next) == left - 1
    ensures var o, rest := Play(sim, policy, None, w, left), Play(sim, policy, None, next, left - 1);
      o.crashed == rest.crashed && o.steps == 1 + rest.steps && o.final == rest.final
  {
    assert sim.Measured(w) && sim.Settles(w, policy(w).value);
    var t := sim.step(w, policy(w).value).value;
    next := t.next;
    assert TakeTurn(sim, policy, None, w) == Some(Turn(t, []));
  }

  lemma {:induction false} ApproachPlay<W(!new)>(sim: Sim<W>, policy: Policy<W>, region: W -> bool, w: W, left: nat)
    requires sim.Lawful() && region(w) && sim.Consistent(w)
    requires sim.distance(w) <= left == sim.maxSteps(w) - sim.steps(w)
    requires forall v :: region(v) && !sim.success(v) ==> Progresses(sim, policy, region, v)
    ensures var o := Play(sim, policy, None, w, left);
      !o.crashed && o.steps == sim.distance(w) && sim.success(o.final)
    decreases left
  {
    assert sim.Measured(w);
    if !sim.success(w) {
      var next := ApproachTurn(sim, policy, region, w, left);
      ApproachPlay(sim, policy, region, next, left - 1);
    }
  }

  /** A policy confined to a region without success never wins. */
  lemma {:induction false} ConfinedNeverWins<W(!new)>(sim: Sim<W>, policy: Policy<W>, region: W -> bool, w: W,
      left: nat)
    requires region(w)
    requires forall v :: region(v) ==> !sim.success(v)
    requires forall v :: region(v) && policy(v).Ok? && sim.step(v, policy(v).value).Ok? ==>
      region(sim.step(v, policy(v).value).value.next)
    ensures !sim.success(Play(sim, policy, None, w, left).final)
    decreases left
  {
    if !sim.view(w).terminal && left > 0 && TakeTurn(sim, policy, None, w).Some? {
      ConfinedNeverWins(sim, policy, region, sim.step(w, policy(w).value).value.next, left - 1);
    }
  }

  /** The policy leads out of the region nowhere. */
  ghost predicate Confines<W(!new)>(sim: Sim<W>, policy: Policy<W>, region: W -> bool, v: W) {
    policy(v).Ok? && sim.step(v, policy(v).value).Ok? ==> region(sim.step(v, policy(v).value).value.next)
  }

  /** So no budget makes it win. */
  lemma ConfinedLoses<W(!new)>(sim: Sim<W>, policy: Policy<W>, region: W -> bool, w: W)
    requires region(w)
    requires forall v :: region(v) ==> !sim.success(v) && Confines(sim, policy, region, v)
    ensures !EverWins(sim, policy, w)
  {
    forall v | region(v) && policy(v).Ok? && sim.step(v, policy(v).value).Ok?
      ensures region(sim.step(v, policy(v).value).value.next)
    {
      assert Confines(sim, policy, region, v);
    }
    ConfinedNeverWins(sim, policy, region, w, Max(0, sim.maxSteps(w) - sim.steps(w)));
  }

  /** Inside the region the policy never steps nearer to success by more than one, and stays inside. */
  ghost predicate Unhurried<W(!new)>(sim: Sim<W>, policy: Policy<W>, region: W -> bool, v: W) {
    policy(v).Ok? && sim.step(v, policy(v).value).Ok? ==>
      var next := sim.step(v, policy(v).value).value.next;
      region(next) && sim.distance(next) >= sim.distance(v) - 1
  }

  ghost predicate NeverHurries<W(!new)>(sim: Sim<W>, policy: Policy<W>, region: W -> bool) {
    forall v :: region(v) ==> Unhurried(sim, policy, region, v)
  }

  lemma {:induction false} UnhurriedPlay<W(!new)>(sim: Sim<W>, policy: Policy<W>, region: W -> bool, w: W, left: nat)
    requires sim.Lawful() && region(w) && NeverHurries(sim, policy, region)
    ensures var o := Play(sim, policy, None, w, left);
      sim.success(o.final) ==> o.steps >= sim.distance(w)
    decreases left
  {
    assert sim.Measured(w);
    if !sim.view(w).terminal && left > 0 && TakeTurn(sim, policy, None, w).Some? {
      var next := sim.step(w, policy(w).value).value.next;
      assert Unhurried(sim, policy, region, w);
      UnhurriedPlay(sim, policy, region, next, left - 1);
    }
  }

  /** A policy that never gains more than one step and wins in exactly the distance has stepped nearer, and goes
      on to win in exactly the distance that is left. */
  lemma ExactWinApproaches<W(!new)>(sim: Sim<W>, policy: Policy<W>, region: W -> bool, w: W)
    requires sim.Lawful() && region(w) && NeverHurries(sim, policy, region)
    requires sim.steps(w) < sim.maxSteps(w) && sim.distance(w) > 0 && WinsIn(sim, policy, w, sim.distance(w))
    ensures policy(w).Ok? && Nearer(sim, w, policy(w).value)
    ensures var next := sim.step(w, policy(w).value).value.next; WinsIn(sim, policy, next, sim.distance(next))
  {
    var left := sim.maxSteps(w) - sim.steps(w);
    assert TakeTurn(sim, policy, None, w).Some?;
    var t := sim.step(w, policy(w).value).value;
    assert sim.Settles(w, policy(w).value) && Unhurried(sim, policy, region, w);
    UnhurriedPlay(sim, policy, region, t.next, left - 1);
    assert Rollout(sim, policy, t.next) == Play(sim, policy, None, t.next, left - 1);
  }

  /** At the i-th of n steps of the path a policy has just the time that is left, and can step nearer only along it. */
  ghost predicate Leads<W(!new)>(sim: Sim<W>, policy: Policy<W>, path: nat -> W, n: nat, i: nat) {
    && i <= n <= sim.maxSteps(path(i)) - sim.steps(path(i)) + i && sim.distance(path(i)) == n - i
    && (i < n && policy(path(i)).Ok? && Nearer(sim, path(i), policy(path(i)).value) ==>
          sim.step(path(i), policy(path(i)).value).value.next == path(i + 1))
  }

  lemma ExactWinStep<W(!new)>(sim: Sim<W>, policy: Policy<W>, region: W -> bool, path: nat -> W, n: nat, i: nat)
    requires sim.Lawful() && NeverHurries(sim, policy, region) && region(path(i)) && i < n
    requires Leads(sim, policy, path, n, i) && Leads(sim, policy, path, n, i + 1) && WinsIn(sim, policy, path(i), n - i)
    ensures policy(path(i)).Ok? && Nearer(sim, path(i), policy(path(i)).value)
    ensures WinsIn(sim, policy, path(i + 1), n - (i + 1))
  {
    ExactWinApproaches(sim, policy, region, path(i));
  }

  /** The i-th state of the path is in the region, and the path leads on from it. */
  ghost predicate Marks<W(!new)>(sim: Sim<W>, policy: Policy<W>, region: W -> bool, path: nat -> W, n: nat, i: nat) {
    region(path(i)) && Leads(sim, policy, path, n, i)
  }

  ghost predicate Follows<W(!new)>(sim: Sim<W>, policy: Policy<W>, path: nat -> W, i: nat) {
    policy(path(i)).Ok? && Nearer(sim, path(i), policy(path(i)).value)
  }

  /** So a policy that wins along the path's length follows it. */
  lemma {:induction false} ExactWinFollows<W(!new)>(sim: Sim<W>, policy: Policy<W>, region: W -> bool, path: nat -> W,
                                                    n: nat, k: nat)
    requires sim.Lawful() && NeverHurries(sim, policy, region)
    requires k <= n && forall i: nat :: i <= n ==> Marks(sim, policy, region, path, n, i)
    requires WinsIn(sim, policy, path(0), n)
    ensures WinsIn(sim, policy, path(k), n - k)
    ensures forall i: nat :: i < k ==> Follows(sim, policy, path, i)
  {
    if k > 0 {
      ExactWinFollows(sim, policy, region, path, n, k - 1);
      assert Marks(sim, policy, region, path, n, k - 1) && Marks(sim, policy, region, path, n, k);
      ExactWinStep(sim, policy, region, path, n, k - 1);
    }
  }

  /** Taking a fixed list of actions, whatever the terminal flag says. */
  function Follow<W(!new)>(sim: Sim<W>, w: W, actions: seq<Action>): Result<W, StepError>
    decreases |actions|
  {
    if actions == [] then Ok(w) else
    match sim.step(w, actions[0])
    case Ok(t) => Follow(sim, t.next, actions[1..])
    case Err(error) => Err(error)
  }

  /** No action sequence at all succeeds in fewer steps. */
  lemma {:induction false} NoShortcut<W(!new)>(sim: Sim<W>, w: W, actions: seq<Action>)
    requires sim.Lawful()
    requires Follow(sim, w, actions).Ok? && sim.success(Follow(sim, w, actions).value)
    ensures |actions| >= sim.shortest(w)
    decreases |actions|
  {
    assert sim.Measured(w);
    if actions != [] {
      assert sim.Settles(w, actions[0]);
      NoShortcut(sim, sim.step(w, actions[0]).value.next, actions[1..]);
    }
  }
}
