/** From the model's outputs to the report, and how far wrong outputs can lead the choice. */
module RankingReports {
  import opened Wrappers
  import opened Schema
  import opened Counterfactuals
  import opened CandidateSets
  import opened Tallies
  import opened Ranking

  /** What the model puts out for one row: the success as a logit, the information gain unclamped. */
  datatype Outputs = Outputs(reward: real, localSuccess: real, progressDelta: real, informationGain: real)

  function Clamp(x: real): real {
    if x < 0.0 then 0.0 else if x > 1.0 then 1.0 else x
  }

  function PredictedScore(o: Outputs, sigmoid: real -> real): real {
    o.reward + 2.0 * o.progressDelta + Clamp(o.informationGain) + 0.5 * sigmoid(o.localSuccess)
  }

  function PredictedScores(outputs: nat -> Outputs, sigmoid: real -> real): nat -> real {
    (i: nat) => PredictedScore(outputs(i), sigmoid)
  }

  /** The reported numbers. An empty denominator gives 0. */
  datatype Ratios = Ratios(groups: int, top1: real, top2: real, pairwise: real, regret: real, firstStep: real,
      firstGroups: int)

  function Share(part: int, whole: int): real {
    if whole == 0 then 0.0 else part as real / whole as real
  }

  function RatiosOf(t: Tally, correct: int, pairs: int): Ratios
    requires 0 < t.groups
  {
    Ratios(t.groups, Share(t.top1, t.groups), Share(t.top2, t.groups), Share(correct, pairs),
           t.regret / t.groups as real, Share(t.firstTop1, t.firstGroups), t.firstGroups)
  }

  datatype EnvRatios = EnvRatios(groups: int, top1: real, top2: real, regret: real, firstStep: real, firstGroups: int)

  function EnvRatiosOf(t: Tally): EnvRatios {
    var groups := Max(1, t.groups);
    EnvRatios(t.groups, Share(t.top1, groups), Share(t.top2, groups), t.regret / groups as real,
              Share(t.firstTop1, t.firstGroups), t.firstGroups)
  }

  datatype Report = Report(listing: seq<IndexGroup>, groups: seq<Group>, ratios: Ratios, byEnv: map<string, EnvRatios>)

  /** The groups are those of the listing, with the scores of their rows. */
  ghost predicate Scored(meta: seq<Sample>, predicted: nat -> real, listing: seq<IndexGroup>, groups: seq<Group>) {
    |groups| == |listing| && forall i :: 0 <= i < |listing| ==> IsScored(meta, predicted, listing[i].indices, groups[i])
  }

  ghost predicate IsScored(meta: seq<Sample>, predicted: nat -> real, indices: seq<nat>, g: Group) {
    && indices != [] && (forall i :: 0 <= i < |indices| ==> indices[i] < |meta|)
    && g == GroupOf(meta, predicted, indices)
  }

  lemma GroupingIsIndexed(meta: seq<Sample>, listing: seq<IndexGroup>, k: nat)
    requires IsGrouping(meta, listing) && k < |listing|
    ensures listing[k].indices != [] && forall i :: 0 <= i < |listing[k].indices| ==> listing[k].indices[i] < |meta|
  {
    assert listing[k] in listing;
    forall i | 0 <= i < |listing[k].indices| ensures listing[k].indices[i] < |meta| {
      assert listing[k].indices[i] in PositionsOf(meta, listing[k].id, |meta|);
    }
  }

  lemma SomeGroup(meta: seq<Sample>, listing: seq<IndexGroup>)
    requires IsGrouping(meta, listing) && exists i :: 0 <= i < |meta| && meta[i].candidateSet != ""
    ensures listing != []
  {
    var i :| 0 <= i < |meta| && meta[i].candidateSet != "";
    var id := meta[i].candidateSet;
    var positions := PositionsOf(meta, id, |meta|);
    assert i in positions;
    assert IndexGroup(id, positions) in listing;
  }

  /** The report's numbers for the groups. */
  ghost predicate Reports(groups: seq<Group>, ratios: Ratios, byEnv: map<string, EnvRatios>) {
    && 0 < |groups| == TallyAll(groups, |groups|).groups
    && ratios == RatiosOf(TallyAll(groups, |groups|), AllPairs(groups, |groups|, true),
         AllPairs(groups, |groups|, false))
    && (forall env :: env in byEnv <==> Occurs(Entries(groups), |groups|, env))
    && (forall env :: env in byEnv ==> byEnv[env] == EnvRatiosOf(TotalIn(Entries(groups), |groups|, {env})))
  }

  /** From the rows of the data set and the model's outputs for them to the report. */
  method EvalActionRanking(meta: seq<Sample>, outputs: nat -> Outputs, sigmoid: real -> real)
    returns (result: Result<Report, RankingError>)
    ensures result.Err? <==> forall i :: 0 <= i < |meta| ==> meta[i].candidateSet == ""
    ensures result.Ok? ==> IsGrouping(meta, result.value.listing)
    ensures result.Ok? ==> Scored(meta, PredictedScores(outputs, sigmoid), result.value.listing, result.value.groups)
    ensures result.Ok? ==> Reports(result.value.groups, result.value.ratios, result.value.byEnv)
  {
    var grouping := CandidateGroups(meta);
    if grouping.Err? {
      return Err(grouping.error);
    }
    var listing := grouping.value;
    var groups := ScoreGroups(meta, PredictedScores(outputs, sigmoid), listing);
    var totals, correct, pairs, stats := RankingMetrics(groups);
    MetricBounds(groups);
    SomeGroup(meta, listing);
    result := Ok(Report(listing, groups, RatiosOf(totals, correct, pairs), map env | env in stats ::
      EnvRatiosOf(stats[env])));
  }

  method ScoreGroups(meta: seq<Sample>, predicted: nat -> real, listing: seq<IndexGroup>) returns (groups: seq<Group>)
    requires IsGrouping(meta, listing)
    ensures Scored(meta, predicted, listing, groups)
  {
    groups := [];
    for k := 0 to |listing|
      invariant Scored(meta, predicted, listing[..k], groups)
    {
      GroupingIsIndexed(meta, listing, k);
      groups := groups + [GroupOf(meta, predicted, listing[k].indices)];
      assert listing[..k + 1] == listing[..k] + [listing[k]];
    }
    assert listing[..|listing|] == listing;
  }

  // ---------- what the numbers can be ----------

  lemma ShareInUnit(part: int, whole: int)
    requires 0 <= part <= whole
    ensures 0.0 <= Share(part, whole) <= 1.0
    ensures Share(part, whole) == 1.0 <==> 0 < part == whole
  {
    if 0 < whole {
      var share := Share(part, whole);
      assert share * whole as real == part as real;
    }
  }

  lemma ShareGrows(part: int, more: int, whole: int)
    requires 0 <= part <= more && 0 < whole
    ensures Share(part, whole) <= Share(more, whole)
  {
  }

  /** Every accuracy is between 0 and 1, top-1 never above top-2, and no regret is negative. */
  lemma RatiosAreBounded(groups: seq<Group>, ratios: Ratios, byEnv: map<string, EnvRatios>)
    requires Reports(groups, ratios, byEnv)
    ensures 0.0 <= ratios.top1 <= ratios.top2 <= 1.0 && 0.0 <= ratios.pairwise <= 1.0 && 0.0 <= ratios.firstStep <= 1.0
    ensures 0.0 <= ratios.regret
  {
    var t := TallyAll(groups, |groups|);
    MetricBounds(groups);
    ShareInUnit(t.top1, t.groups);
    ShareInUnit(t.top2, t.groups);
    ShareGrows(t.top1, t.top2, t.groups);
    ShareInUnit(AllPairs(groups, |groups|, true), AllPairs(groups, |groups|, false));
    ShareInUnit(t.firstTop1, t.firstGroups);
  }

  // ---------- what the numbers mean ----------

  /** What one group shows: whether the best candidate is the one predicted best, whether it is that or the next in the
      predicted order, and what choosing the one predicted best loses. */
  datatype Mark = Mark(env: string, first: bool, two: bool, loss: real, start: bool)

  function MarkOf(g: Group): Mark {
    var best, order := BestPosition(g.actual), Order(g.predicted, |g.predicted|);
    Mark(g.env, best == BestPosition(g.predicted), best == order[0] || (|order| > 1 && best == order[1]),
         g.actual[best] - g.actual[BestPosition(g.predicted)], g.firstStep)
  }

  function Marks(groups: seq<Group>): (marks: seq<Mark>)
    ensures |marks| == |groups| && forall i :: 0 <= i < |groups| ==> marks[i] == MarkOf(groups[i])
  {
    seq(|groups|, i requires 0 <= i < |groups| => MarkOf(groups[i]))
  }

  /** What marks are counted for. */
  datatype Wish = Any | First | AmongTwo | Start | FirstAtStart

  predicate Meets(m: Mark, wish: Wish) {
    match wish
    case Any => true
    case First => m.first
    case AmongTwo => m.two
    case Start => m.start
    case FirstAtStart => m.start && m.first
  }

  /** The mark is of the environment, or no environment is asked for. */
  predicate In(m: Mark, env: Option<string>) {
    env.Some? ==> env.value == m.env
  }

  function Count(marks: seq<Mark>, env: Option<string>, wish: Wish): int {
    if marks == [] then 0
    else Count(marks[..|marks| - 1], env, wish)
         + if In(marks[|marks| - 1], env) && Meets(marks[|marks| - 1], wish) then 1 else 0
  }

  function Lost(marks: seq<Mark>, env: Option<string>): real {
    if marks == [] then 0.0
    else Lost(marks[..|marks| - 1], env) + if In(marks[|marks| - 1], env) then marks[|marks| - 1].loss else 0.0
  }

  /** The tally counts the marks. */
  predicate Sums(t: Tally, marks: seq<Mark>, env: Option<string>) {
    && t.groups == Count(marks, env, Any) && t.top1 == Count(marks, env, First) && t.top2 == Count(marks, env, AmongTwo)
    && t.regret == Lost(marks, env)
    && t.firstGroups == Count(marks, env, Start) && t.firstTop1 == Count(marks, env, FirstAtStart)
  }

  function TallyOfMark(m: Mark): Tally {
    Tally(1, One(m.first), One(m.two), m.loss, One(m.start), One(m.start && m.first))
  }

  lemma OneIsMarked(g: Group)
    ensures TallyOne(g) == TallyOfMark(MarkOf(g))
  {
    ChosenIsBest(g);
    var order := Order(g.predicted, |g.predicted|);
    var two := order[..Min(2, |order|)];
    assert BestPosition(g.actual) in two <==> exists k :: 0 <= k < |two| && two[k] == BestPosition(g.actual);
    assert two[0] == order[0] && (|order| > 1 ==> two[1] == order[1]);
  }

  /** Each entry is the tally of its mark. */
  predicate Marked(entries: seq<Entry>, marks: seq<Mark>) {
    |entries| == |marks| && forall i :: 0 <= i < |marks| ==> entries[i] == Entry(marks[i].env, TallyOfMark(marks[i]))
  }

  lemma {:induction false} TotalTallies(entries: seq<Entry>, marks: seq<Mark>, n: nat)
    requires n <= |marks| && Marked(entries, marks)
    ensures Sums(Total(entries, n), marks[..n], None)
  {
    if n > 0 {
      TotalTallies(entries, marks, n - 1);
      assert marks[..n][..n - 1] == marks[..n - 1];
    }
  }

  lemma {:induction false} EnvTallies(entries: seq<Entry>, marks: seq<Mark>, n: nat, env: string)
    requires n <= |marks| && Marked(entries, marks)
    ensures Sums(TotalIn(entries, n, {env}), marks[..n], Some(env))
  {
    if n > 0 {
      EnvTallies(entries, marks, n - 1, env);
      assert marks[..n][..n - 1] == marks[..n - 1];
    }
  }

  lemma EntriesAreMarked(groups: seq<Group>)
    ensures Marked(Entries(groups), Marks(groups))
  {
    forall i | 0 <= i < |groups| ensures Entries(groups)[i] == Entry(groups[i].env, TallyOfMark(MarkOf(groups[i]))) {
      OneIsMarked(groups[i]);
    }
  }

  /** The ratio is the share of the part in the whole. */
  predicate IsShare(ratio: real, part: int, whole: int) {
    if whole == 0 then ratio == 0.0 else ratio * whole as real == part as real
  }

  lemma ShareIs(part: int, whole: int)
    ensures IsShare(Share(part, whole), part, whole)
  {
  }

  lemma MeanIs(total: real, count: int)
    requires 0 < count
    ensures total / count as real * count as real == total
  {
  }

  /** What a report's numbers are shares of. */
  predicate SharesOf(r: Ratios, t: Tally, correct: int, pairs: int) {
    && r.groups == t.groups && r.firstGroups == t.firstGroups
    && IsShare(r.top1, t.top1, t.groups) && IsShare(r.top2, t.top2, t.groups)
    && IsShare(r.firstStep, t.firstTop1, t.firstGroups) && IsShare(r.pairwise, correct, pairs)
    && r.regret * t.groups as real == t.regret
  }

  lemma RatiosAreShares(t: Tally, correct: int, pairs: int)
    requires 0 < t.groups
    ensures SharesOf(RatiosOf(t, correct, pairs), t, correct, pairs)
  {
    ShareIs(t.top1, t.groups);
    ShareIs(t.top2, t.groups);
    ShareIs(t.firstTop1, t.firstGroups);
    ShareIs(correct, pairs);
    MeanIs(t.regret, t.groups);
  }

  predicate EnvSharesOf(r: EnvRatios, t: Tally) {
    && r.groups == t.groups && r.firstGroups == t.firstGroups
    && IsShare(r.top1, t.top1, t.groups) && IsShare(r.top2, t.top2, t.groups)
    && IsShare(r.firstStep, t.firstTop1, t.firstGroups)
    && r.regret * t.groups as real == t.regret
  }

  lemma EnvRatiosAreShares(t: Tally)
    requires 0 < t.groups
    ensures EnvSharesOf(EnvRatiosOf(t), t)
  {
    ShareIs(t.top1, t.groups);
    ShareIs(t.top2, t.groups);
    ShareIs(t.firstTop1, t.firstGroups);
    MeanIs(t.regret, t.groups);
  }

  /** Every number of the report is what its name says: the share of the groups, or of the pairs, that it counts, or the
      mean loss, overall and in each environment. */
  lemma ReportCounts(groups: seq<Group>, ratios: Ratios, byEnv: map<string, EnvRatios>, env: string)
      returns (all: Tally, own: Tally)
    requires Reports(groups, ratios, byEnv) && env in byEnv
    ensures Sums(all, Marks(groups), None) && all.groups == |groups|
    ensures SharesOf(ratios, all, AllPairs(groups, |groups|, true), AllPairs(groups, |groups|, false))
    ensures Sums(own, Marks(groups), Some(env)) && 0 < own.groups
    ensures EnvSharesOf(byEnv[env], own)
  {
    var entries, marks := Entries(groups), Marks(groups);
    EntriesAreMarked(groups);
    TotalTallies(entries, marks, |groups|);
    EnvTallies(entries, marks, |groups|, env);
    assert marks[..|groups|] == marks;
    all, own := Total(entries, |groups|), TotalIn(entries, |groups|, {env});
    RatiosAreShares(all, AllPairs(groups, |groups|, true), AllPairs(groups, |groups|, false));
    EnvIsCounted(entries, marks, |groups|, env);
    EnvRatiosAreShares(own);
  }

  lemma {:induction false} EnvIsCounted(entries: seq<Entry>, marks: seq<Mark>, n: nat, env: string)
    requires n <= |marks| && Marked(entries, marks)
    ensures 0 <= TotalIn(entries, n, {env}).groups
    ensures Occurs(entries, n, env) ==> 0 < TotalIn(entries, n, {env}).groups
  {
    if n > 0 {
      EnvIsCounted(entries, marks, n - 1, env);
      EnvNext(entries, n - 1, env);
    }
  }

  // ---------- how far wrong outputs can lead the choice ----------

  predicate OffBy(g: Group, delta: real) {
    forall i :: 0 <= i < |g.actual| ==> Abs(g.predicted[i] - g.actual[i]) <= delta
  }

  /** Scores that are off by at most delta lose at most twice that. */
  lemma GroupRegret(g: Group, delta: real)
    requires OffBy(g, delta)
    ensures Regret(g) <= 2.0 * delta
  {
    ChosenIsBest(g);
    var chosen, best := BestPosition(g.predicted), BestPosition(g.actual);
    assert chosen == best || Before(g.predicted, chosen, best);
    assert Abs(g.predicted[chosen] - g.actual[chosen]) <= delta && Abs(g.predicted[best] - g.actual[best]) <= delta;
  }

  lemma {:induction false} TotalRegret(entries: seq<Entry>, n: nat, most: real)
    requires n <= |entries| && forall i :: 0 <= i < n ==> entries[i].tally.regret <= most
    ensures Total(entries, n).regret <= most * n as real
  {
    if n > 0 {
      TotalRegret(entries, n - 1, most);
      assert most * n as real == most * (n - 1) as real + most;
    }
  }

  /** The reported regret is at most twice the largest error of a score. */
  lemma RegretIsBounded(groups: seq<Group>, ratios: Ratios, byEnv: map<string, EnvRatios>, delta: real)
    requires Reports(groups, ratios, byEnv) && forall i :: 0 <= i < |groups| ==> OffBy(groups[i], delta)
    ensures ratios.regret <= 2.0 * delta
  {
    var entries := Entries(groups);
    forall i | 0 <= i < |entries| ensures entries[i].tally.regret <= 2.0 * delta {
      GroupRegret(groups[i], delta);
    }
    MeanRegret(entries, 2.0 * delta);
  }

  lemma MeanRegret(entries: seq<Entry>, most: real)
    requires 0 < |entries| && forall i :: 0 <= i < |entries| ==> entries[i].tally.regret <= most
    ensures Total(entries, |entries|).regret / |entries| as real <= most
  {
    TotalRegret(entries, |entries|, most);
    Quotient(Total(entries, |entries|).regret, |entries| as real, most);
  }

  lemma Quotient(total: real, n: real, most: real)
    requires 0.0 < n && total <= most * n
    ensures total / n <= most
  {
    var q := total / n;
    assert q * n == total;
    if q > most {
      assert (q - most) * n > 0.0;
    }
  }

  /** Twice is exact: of two actions with the same predicted score the first is taken, and it may be worse by
      2 delta. */
  lemma RegretBoundIsExact(delta: real)
    requires 0.0 < delta
    ensures var g := GroupData("", false, [0.0, 2.0 * delta], [delta, delta]);
      OffBy(g, delta) && Regret(g) == 2.0 * delta
  {
    var g: Group := GroupData("", false, [0.0, 2.0 * delta], [delta, delta]);
    ChosenIsBest(g);
  }

  /** The row of a counterfactual table and the model's outputs for it: each output within eps, the predicted success
      probability within sigma. */
  predicate OutputsClose(row: Row, o: Outputs, sigmoid: real -> real, eps: real, sigma: real) {
    && Abs(o.reward - row.reward) <= eps && Abs(o.progressDelta - row.progressDelta) <= eps
    && Abs(o.informationGain - row.informationGain) <= eps
    && Abs(sigmoid(o.localSuccess) - Flag(row.success)) <= sigma
  }

  /** Such outputs are scored like the row itself, up to 4 eps + sigma / 2. */
  lemma ScoreError(before: WorldState, a: Action, t: Transition<WorldState>, o: Outputs, sigmoid: real -> real,
                   eps: real, sigma: real)
    requires InUnit(t.informationGain) && OutputsClose(RowOf(before, a, t), o, sigmoid, eps, sigma)
    ensures Abs(PredictedScore(o, sigmoid) - RowOf(before, a, t).score) <= 4.0 * eps + 0.5 * sigma
  {
    var row := RowOf(before, a, t);
    assert Abs(Clamp(o.informationGain) - row.informationGain) <= eps;
  }
}
