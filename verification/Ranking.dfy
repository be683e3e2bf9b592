/** The metrics that compare predicted action scores with the true ones, group by group. */
module Ranking {
  import opened Wrappers
  import opened CandidateSets
  import opened Tallies

  /** A group with its true and predicted scores. */
  datatype GroupData = GroupData(env: string, firstStep: bool, actual: seq<real>, predicted: seq<real>) {
    predicate Valid() {
      0 < |actual| == |predicted|
    }
  }

  type Group = g: GroupData | g.Valid() witness GroupData("", false, [0.0], [0.0])

  function GroupOf(meta: seq<Sample>, predicted: nat -> real, indices: seq<nat>): Group
    requires indices != [] && forall i :: 0 <= i < |indices| ==> indices[i] < |meta|
  {
    GroupData(meta[indices[0]].env, meta[indices[0]].stepIndex == 0,
              seq(|indices|, i requires 0 <= i < |indices| => meta[indices[i]].score.GetOr(0.0)),
              seq(|indices|, i requires 0 <= i < |indices| => predicted(indices[i])))
  }

  /** Position i comes before position j in a stable descending order. */
  predicate Before(scores: seq<real>, i: nat, j: nat)
    requires i < |scores| && j < |scores|
  {
    scores[i] > scores[j] || (scores[i] == scores[j] && i < j)
  }

  ghost predicate IsFirstMaximum(scores: seq<real>, best: nat) {
    best < |scores| && forall i: nat :: i < |scores| && i != best ==> Before(scores, best, i)
  }

  /** The position of the first maximum among the first n. */
  function BestAmong(scores: seq<real>, n: nat): (best: nat)
    requires 0 < n <= |scores|
    ensures best < n && forall i: nat :: i < n ==> scores[i] <= scores[best] && (i < best ==> scores[i] < scores[best])
  {
    if n == 1 then 0 else
    var best := BestAmong(scores, n - 1);
    if scores[n - 1] > scores[best] then n - 1 else best
  }

  function BestPosition(scores: seq<real>): (best: nat)
    requires scores != []
    ensures IsFirstMaximum(scores, best)
  {
    BestAmong(scores, |scores|)
  }

  predicate Positions(scores: seq<real>, order: seq<nat>) {
    forall i :: 0 <= i < |order| ==> order[i] < |scores|
  }

  function Insert(scores: seq<real>, order: seq<nat>, p: nat): (inserted: seq<nat>)
    requires p < |scores| && Positions(scores, order)
    ensures |inserted| == |order| + 1 && Positions(scores, inserted)
  {
    if order == [] || scores[order[0]] < scores[p] then [p] + order
    else [order[0]] + Insert(scores, order[1..], p)
  }

  /** The first n positions, sorted by descending score; equal scores keep their order. */
  function Order(scores: seq<real>, n: nat): (order: seq<nat>)
    requires n <= |scores|
    ensures |order| == n && Positions(scores, order)
  {
    if n == 0 then [] else Insert(scores, Order(scores, n - 1), n - 1)
  }

  predicate Descending(scores: seq<real>, order: seq<nat>)
    requires Positions(scores, order)
  {
    forall i, j :: 0 <= i < j < |order| ==> Before(scores, order[i], order[j])
  }

  lemma {:induction false} InsertKeeps(scores: seq<real>, order: seq<nat>, p: nat)
    requires p < |scores| && Positions(scores, order)
    ensures forall x :: x in Insert(scores, order, p) <==> x in order || x == p
    decreases |order|
  {
    if order != [] && scores[order[0]] >= scores[p] {
      assert order == [order[0]] + order[1..];
      InsertKeeps(scores, order[1..], p);
    }
  }

  lemma {:induction false} InsertDescends(scores: seq<real>, order: seq<nat>, p: nat)
    requires p < |scores| && Positions(scores, order) && Descending(scores, order)
    requires forall x :: x in order ==> x < p
    ensures Descending(scores, Insert(scores, order, p))
    decreases |order|
  {
    if order != [] && scores[order[0]] >= scores[p] {
      var rest := order[1..];
      forall x | x in rest ensures x < p {
        assert x in order;
      }
      InsertDescends(scores, rest, p);
      InsertKeeps(scores, rest, p);
      var inserted := Insert(scores, rest, p);
      assert order[0] in order;
      forall i | 0 <= i < |inserted| ensures Before(scores, order[0], inserted[i]) {
        assert inserted[i] in inserted;
        if inserted[i] != p {
          var k :| 0 <= k < |rest| && rest[k] == inserted[i];
          assert Before(scores, order[0], order[k + 1]);
        }
      }
    }
  }

  /** The order is a permutation of the positions, descending, and stable. */
  lemma {:induction false} OrderIsStable(scores: seq<real>, n: nat)
    requires n <= |scores|
    ensures Descending(scores, Order(scores, n))
    ensures forall p: nat :: p in Order(scores, n) <==> p < n
  {
    if n > 0 {
      OrderIsStable(scores, n - 1);
      InsertKeeps(scores, Order(scores, n - 1), n - 1);
      InsertDescends(scores, Order(scores, n - 1), n - 1);
    }
  }

  function Chosen(g: Group): (chosen: nat)
    ensures chosen < |g.predicted|
  {
    Order(g.predicted, |g.predicted|)[0]
  }

  lemma NotBoth(scores: seq<real>, i: nat, j: nat)
    requires i < |scores| && j < |scores|
    ensures !(Before(scores, i, j) && Before(scores, j, i))
  {
  }

  /** Sorting and taking the maximum agree on the first place. */
  lemma ChosenIsBest(g: Group)
    ensures Chosen(g) == BestPosition(g.predicted)
  {
    var scores := g.predicted;
    OrderIsStable(scores, |scores|);
    FirstIsBest(scores, Order(scores, |scores|), BestPosition(scores));
  }

  lemma FirstIsBest(scores: seq<real>, order: seq<nat>, best: nat)
    requires Positions(scores, order) && Descending(scores, order) && order != []
    requires best in order && IsFirstMaximum(scores, best)
    ensures order[0] == best
  {
    var k :| 0 <= k < |order| && order[k] == best;
    assert k == 0 || Before(scores, order[0], order[k]);
    NotBoth(scores, best, order[0]);
  }

  predicate TopOne(g: Group) {
    Chosen(g) == BestPosition(g.actual)
  }

  predicate TopTwo(g: Group) {
    var order := Order(g.predicted, |g.predicted|);
    BestPosition(g.actual) in order[..Min(2, |order|)]
  }

  function Regret(g: Group): real {
    g.actual[BestPosition(g.actual)] - g.actual[Chosen(g)]
  }

  predicate Counted(g: Group, l: nat, r: nat, onlyCorrect: bool)
    requires l < |g.actual| && r < |g.actual|
  {
    && g.actual[l] != g.actual[r]
    && (onlyCorrect ==> (g.actual[l] - g.actual[r]) * (g.predicted[l] - g.predicted[r]) > 0.0)
  }

  /** How many of the pairs (l, l + 1) ... (l, r - 1) are counted. */
  function Row(g: Group, l: nat, r: nat, onlyCorrect: bool): nat
    requires l < r <= |g.actual|
    decreases r
  {
    if r == l + 1 then 0 else Row(g, l, r - 1, onlyCorrect) + if Counted(g, l, r - 1, onlyCorrect) then 1 else 0
  }

  function Pairs(g: Group, n: nat, onlyCorrect: bool): nat
    requires n <= |g.actual|
  {
    if n == 0 then 0 else Pairs(g, n - 1, onlyCorrect) + Row(g, n - 1, |g.actual|, onlyCorrect)
  }

  function One(b: bool): int {
    if b then 1 else 0
  }

  function TallyOne(g: Group): Tally {
    Tally(1, One(TopOne(g)), One(TopTwo(g)), Regret(g), One(g.firstStep), One(g.firstStep && TopOne(g)))
  }

  function Entries(groups: seq<Group>): (entries: seq<Entry>)
    ensures |entries| == |groups|
    ensures forall i :: 0 <= i < |groups| ==> entries[i] == Entry(groups[i].env, TallyOne(groups[i]))
  {
    seq(|groups|, i requires 0 <= i < |groups| => Entry(groups[i].env, TallyOne(groups[i])))
  }

  /** The sums over the first n groups. */
  function TallyAll(groups: seq<Group>, n: nat): Tally
    requires n <= |groups|
  {
    Total(Entries(groups), n)
  }

  function AllPairs(groups: seq<Group>, n: nat, onlyCorrect: bool): nat
    requires n <= |groups|
  {
    if n == 0 then 0
    else AllPairs(groups, n - 1, onlyCorrect) + Pairs(groups[n - 1], |groups[n - 1].actual|, onlyCorrect)
  }

  /** One group's pairs, by two nested loops. */
  method CountPairs(g: Group) returns (correct: nat, total: nat)
    ensures correct == Pairs(g, |g.actual|, true) && total == Pairs(g, |g.actual|, false)
  {
    correct, total := 0, 0;
    for left := 0 to |g.actual|
      invariant correct == Pairs(g, left, true) && total == Pairs(g, left, false)
    {
      for right := left + 1 to |g.actual|
        invariant correct == Pairs(g, left, true) + Row(g, left, right, true)
        invariant total == Pairs(g, left, false) + Row(g, left, right, false)
      {
        var actualDelta, predictedDelta := g.actual[left] - g.actual[right], g.predicted[left] - g.predicted[right];
        if actualDelta == 0.0 {
          continue;
        }
        total := total + 1;
        if actualDelta * predictedDelta > 0.0 {
          correct := correct + 1;
        }
      }
    }
  }

  /** What one group contributes. */
  method Measure(g: Group) returns (tally: Tally, correct: nat, pairs: nat)
    ensures tally == TallyOne(g)
    ensures correct == Pairs(g, |g.actual|, true) && pairs == Pairs(g, |g.actual|, false)
  {
    tally := TallyOne(g);
    correct, pairs := CountPairs(g);
  }

  /** The counters after the first n groups. */
  ghost predicate Measured(groups: seq<Group>, n: nat, totals: Tally, correct: nat, pairs: nat,
                           stats: map<string, Tally>)
    requires n <= |groups|
  {
    && totals == TallyAll(groups, n) && PerEnv(stats, Entries(groups), n)
    && correct == AllPairs(groups, n, true) && pairs == AllPairs(groups, n, false)
  }

  lemma MeasuredNext(groups: seq<Group>, n: nat, totals: Tally, correct: nat, pairs: nat, stats: map<string, Tally>,
                     tally: Tally)
    requires n < |groups| && Measured(groups, n, totals, correct, pairs, stats) && tally == TallyOne(groups[n])
    ensures Measured(groups, n + 1, Plus(totals, tally), correct + Pairs(groups[n], |groups[n].actual|, true),
                     pairs + Pairs(groups[n], |groups[n].actual|, false),
                     stats[groups[n].env := Plus(SoFar(stats, groups[n].env), tally)])
  {
    assert Entries(groups)[n] == Entry(groups[n].env, tally);
    PerEnvNext(stats, Entries(groups), n);
  }

  /** The counters behind the report, over all groups and by environment. */
  method RankingMetrics(groups: seq<Group>) returns (totals: Tally, correct: nat, pairs: nat, stats: map<string, Tally>)
    ensures totals == TallyAll(groups, |groups|) && PerEnv(stats, Entries(groups), |groups|)
    ensures correct == AllPairs(groups, |groups|, true) && pairs == AllPairs(groups, |groups|, false)
  {
    totals, correct, pairs, stats := NOTHING, 0, 0, map[];
    for n := 0 to |groups|
      invariant Measured(groups, n, totals, correct, pairs, stats)
    {
      var tally, c, p := Measure(groups[n]);
      MeasuredNext(groups, n, totals, correct, pairs, stats, tally);
      totals, stats := Plus(totals, tally), stats[groups[n].env := Plus(SoFar(stats, groups[n].env), tally)];
      correct, pairs := correct + c, pairs + p;
    }
  }

  /** Choosing by prediction hits the true best exactly if that candidate is predicted above every
      earlier one and not below any later one. */
  lemma TopOneExactly(g: Group)
    ensures TopOne(g) <==>
      IsFirstMaximum(g.predicted, BestPosition(g.actual))
  {
    ChosenIsBest(g);
    NotBoth(g.predicted, BestPosition(g.actual), Chosen(g));
  }

  lemma {:induction false} RowBound(g: Group, l: nat, r: nat)
    requires l < r <= |g.actual|
    ensures Row(g, l, r, true) <= Row(g, l, r, false)
    ensures Row(g, l, r, true) == Row(g, l, r, false) ==>
      forall k :: l < k < r && Counted(g, l, k, false) ==> Counted(g, l, k, true)
    decreases r
  {
    if r > l + 1 {
      RowBound(g, l, r - 1);
    }
  }

  /** Equal counters mean that no pair was ordered wrongly. */
  lemma {:induction false} PairsBound(g: Group, n: nat)
    requires n <= |g.actual|
    ensures Pairs(g, n, true) <= Pairs(g, n, false)
    ensures Pairs(g, n, true) == Pairs(g, n, false) ==>
      forall l, k :: 0 <= l < n && l < k < |g.actual| && Counted(g, l, k, false) ==> Counted(g, l, k, true)
  {
    if n > 0 {
      PairsBound(g, n - 1);
      RowBound(g, n - 1, |g.actual|);
    }
  }

  lemma WorseChoiceIsMisordered(g: Group, chosen: nat, best: nat)
    requires chosen < |g.actual| && best < |g.actual|
    requires g.actual[best] > g.actual[chosen] && g.predicted[chosen] >= g.predicted[best]
    ensures Counted(g, Min(chosen, best), Max(chosen, best), false)
    ensures !Counted(g, Min(chosen, best), Max(chosen, best), true)
  {
  }

  /** A group without a misordered pair has no regret: what is predicted best is one of the best. */
  lemma NoMisorderNoRegret(g: Group)
    requires NeverMisordered(g)
    ensures Regret(g) == 0.0
  {
    PairsBound(g, |g.actual|);
    ChosenIsBest(g);
    var chosen, best := BestPosition(g.predicted), BestPosition(g.actual);
    assert chosen == best || (Before(g.predicted, chosen, best) && Before(g.actual, best, chosen));
    if g.actual[best] > g.actual[chosen] {
      WorseChoiceIsMisordered(g, chosen, best);
    }
  }

  lemma GroupIsBounded(g: Group)
    ensures Bounded(TallyOne(g))
  {
    var order := Order(g.predicted, |g.predicted|);
    assert order[..Min(2, |order|)][0] == order[0];
    assert Chosen(g) != BestPosition(g.actual) ==> Before(g.actual, BestPosition(g.actual), Chosen(g));
  }

  lemma {:induction false} AllPairsBound(groups: seq<Group>, n: nat)
    requires n <= |groups|
    ensures AllPairs(groups, n, true) <= AllPairs(groups, n, false)
    ensures AllPairs(groups, n, true) == AllPairs(groups, n, false) ==>
      forall i :: 0 <= i < n ==> NeverMisordered(groups[i])
  {
    if n > 0 {
      AllPairsBound(groups, n - 1);
      PairsBound(groups[n - 1], |groups[n - 1].actual|);
    }
  }

  predicate NeverMisordered(g: Group) {
    Pairs(g, |g.actual|, true) == Pairs(g, |g.actual|, false)
  }

  /** What the counters always satisfy. */
  lemma {:induction false} MetricBounds(groups: seq<Group>)
    ensures var t := TallyAll(groups, |groups|);
      0 <= t.firstTop1 <= t.top1 <= t.top2 <= t.groups == |groups| && t.firstTop1 <= t.firstGroups && t.regret >= 0.0
    ensures AllPairs(groups, |groups|, true) <= AllPairs(groups, |groups|, false)
  {
    var entries := Entries(groups);
    forall i | 0 <= i < |groups| ensures Bounded(entries[i].tally) {
      GroupIsBounded(groups[i]);
    }
    TotalIsBounded(entries, |groups|);
    AllPairsBound(groups, |groups|);
  }

  /** A perfect pairwise ranking accuracy leaves no regret at all. */
  lemma {:induction false} PerfectPairsNoRegret(groups: seq<Group>)
    requires AllPairs(groups, |groups|, true) == AllPairs(groups, |groups|, false)
    ensures TallyAll(groups, |groups|).regret == 0.0
  {
    var entries := Entries(groups);
    AllPairsBound(groups, |groups|);
    forall i | 0 <= i < |groups| ensures entries[i].tally.regret == 0.0 {
      NoMisorderNoRegret(groups[i]);
    }
    TotalHasNoRegret(entries, |groups|);
  }

  ghost predicate Increasing(f: real -> real) {
    forall x, y :: x < y ==> f(x) < f(y)
  }

  predicate PredictedBy(f: real -> real, g: Group) {
    forall i :: 0 <= i < |g.actual| ==> g.predicted[i] == f(g.actual[i])
  }

  lemma {:induction false} MonotoneCountsAll(f: real -> real, g: Group, l: nat, r: nat)
    requires Increasing(f) && PredictedBy(f, g) && l < r <= |g.actual|
    ensures Row(g, l, r, true) == Row(g, l, r, false)
    decreases r
  {
    if r > l + 1 {
      MonotoneCountsAll(f, g, l, r - 1);
      MonotonePair(f, g.actual[l], g.actual[r - 1]);
    }
  }

  lemma MonotonePair(f: real -> real, x: real, y: real)
    requires Increasing(f)
    ensures x != y ==> (x - y) * (f(x) - f(y)) > 0.0
  {
    if x < y {
      Positive(y - x, f(y) - f(x));
      assert (x - y) * (f(x) - f(y)) == (y - x) * (f(y) - f(x));
    } else if y < x {
      Positive(x - y, f(x) - f(y));
    }
  }

  lemma Positive(a: real, b: real)
    requires a > 0.0 && b > 0.0
    ensures a * b > 0.0
  {
  }

  lemma {:induction false} MonotonePairs(f: real -> real, g: Group, n: nat)
    requires Increasing(f) && PredictedBy(f, g) && n <= |g.actual|
    ensures Pairs(g, n, true) == Pairs(g, n, false)
  {
    if n > 0 {
      MonotonePairs(f, g, n - 1);
      MonotoneCountsAll(f, g, n - 1, |g.actual|);
    }
  }

  /** Scores that are any strictly increasing function of the true ones are perfect in every metric,
      ties included. */
  lemma {:induction false} MonotoneScoresArePerfect(f: real -> real, groups: seq<Group>)
    requires Increasing(f) && forall i :: 0 <= i < |groups| ==> PredictedBy(f, groups[i])
    ensures Perfect(TallyAll(groups, |groups|)) && TallyAll(groups, |groups|).groups == |groups|
    ensures AllPairs(groups, |groups|, true) == AllPairs(groups, |groups|, false)
  {
    var entries := Entries(groups);
    forall i | 0 <= i < |groups| ensures Perfect(entries[i].tally) {
      MonotoneTopOne(f, groups[i]);
      GroupIsBounded(groups[i]);
    }
    TotalIsPerfect(entries, |groups|);
    MetricBounds(groups);
    MonotoneAllPairs(f, groups, |groups|);
  }

  lemma {:induction false} MonotoneAllPairs(f: real -> real, groups: seq<Group>, n: nat)
    requires Increasing(f) && n <= |groups| && forall i :: 0 <= i < n ==> PredictedBy(f, groups[i])
    ensures AllPairs(groups, n, true) == AllPairs(groups, n, false)
  {
    if n > 0 {
      MonotoneAllPairs(f, groups, n - 1);
      MonotonePairs(f, groups[n - 1], |groups[n - 1].actual|);
    }
  }

  lemma MonotoneTopOne(f: real -> real, g: Group)
    requires Increasing(f) && PredictedBy(f, g)
    ensures TopOne(g) && Regret(g) == 0.0
  {
    TopOneExactly(g);
    var best := BestPosition(g.actual);
    forall i: nat | i < |g.predicted| && i != best ensures Before(g.predicted, best, i) {
      assert Before(g.actual, best, i);
    }
  }
}
