/** Sums over groups, in total and by environment. */
module Tallies {

  /** The sums that the metrics are ratios of. */
  datatype Tally = Tally(groups: int, top1: int, top2: int, regret: real, firstGroups: int, firstTop1: int)

  const NOTHING := Tally(0, 0, 0, 0.0, 0, 0)

  function Plus(a: Tally, b: Tally): Tally {
    Tally(a.groups + b.groups, a.top1 + b.top1, a.top2 + b.top2, a.regret + b.regret,
          a.firstGroups + b.firstGroups, a.firstTop1 + b.firstTop1)
  }

  /** What one group adds, and to which environment. */
  datatype Entry = Entry(env: string, tally: Tally)

  /** The sum over the first n entries. */
  function Total(entries: seq<Entry>, n: nat): Tally
    requires n <= |entries|
  {
    if n == 0 then NOTHING else Plus(Total(entries, n - 1), entries[n - 1].tally)
  }

  /** The sum over those of the first n entries that belong to the given environments. */
  function TotalIn(entries: seq<Entry>, n: nat, envs: set<string>): Tally
    requires n <= |entries|
  {
    if n == 0 then NOTHING
    else if entries[n - 1].env in envs then Plus(TotalIn(entries, n - 1, envs), entries[n - 1].tally)
    else TotalIn(entries, n - 1, envs)
  }

  predicate Occurs(entries: seq<Entry>, n: nat, env: string)
    requires n <= |entries|
  {
    exists i :: 0 <= i < n && entries[i].env == env
  }

  /** Each environment has exactly the sum of its own entries. */
  ghost predicate PerEnv(stats: map<string, Tally>, entries: seq<Entry>, n: nat)
    requires n <= |entries|
  {
    && (forall env :: env in stats <==> Occurs(entries, n, env))
    && (forall env :: env in stats ==> stats[env] == TotalIn(entries, n, {env}))
  }

  function SoFar(stats: map<string, Tally>, env: string): Tally {
    if env in stats then stats[env] else NOTHING
  }

  lemma PlusMoves(a: Tally, b: Tally, t: Tally)
    ensures Plus(Plus(a, b), t) == Plus(Plus(a, t), b) == Plus(a, Plus(b, t))
  {
  }

  lemma NothingTwice(nothing: Tally)
    requires nothing == NOTHING
    ensures nothing == Plus(nothing, nothing)
  {
  }

  lemma {:induction false} AbsentEnv(entries: seq<Entry>, n: nat, env: string)
    requires n <= |entries| && !Occurs(entries, n, env)
    ensures TotalIn(entries, n, {env}) == NOTHING
  {
    if n > 0 {
      AbsentEnv(entries, n - 1, env);
    }
  }

  lemma EnvNext(entries: seq<Entry>, n: nat, env: string)
    requires n < |entries|
    ensures Occurs(entries, n + 1, env) <==> Occurs(entries, n, env) || env == entries[n].env
    ensures TotalIn(entries, n + 1, {env})
         == if env == entries[n].env then Plus(TotalIn(entries, n, {env}), entries[n].tally)
            else TotalIn(entries, n, {env})
  {
  }

  lemma PerEnvNext(stats: map<string, Tally>, entries: seq<Entry>, n: nat)
    requires n < |entries| && PerEnv(stats, entries, n)
    ensures PerEnv(stats[entries[n].env := Plus(SoFar(stats, entries[n].env), entries[n].tally)], entries, n + 1)
  {
    var env := entries[n].env;
    if env !in stats {
      AbsentEnv(entries, n, env);
    }
    forall e ensures Occurs(entries, n + 1, e) <==> Occurs(entries, n, e) || e == env
             ensures TotalIn(entries, n + 1, {e})
                  == if e == env then Plus(TotalIn(entries, n, {e}), entries[n].tally) else TotalIn(entries, n, {e})
    {
      EnvNext(entries, n, e);
    }
  }

  /** Environments that do not overlap are summed independently. */
  lemma {:induction false} TotalSplits(entries: seq<Entry>, n: nat, a: set<string>, b: set<string>)
    requires n <= |entries| && a !! b
    ensures TotalIn(entries, n, a + b) == Plus(TotalIn(entries, n, a), TotalIn(entries, n, b))
  {
    if n == 0 {
      NothingTwice(TotalIn(entries, n, a));
    } else {
      TotalSplits(entries, n - 1, a, b);
      PlusMoves(TotalIn(entries, n - 1, a), TotalIn(entries, n - 1, b), entries[n - 1].tally);
    }
  }

  lemma {:induction false} TotalOfAll(entries: seq<Entry>, n: nat, envs: set<string>)
    requires n <= |entries| && forall i :: 0 <= i < n ==> entries[i].env in envs
    ensures TotalIn(entries, n, envs) == Total(entries, n)
  {
    if n > 0 {
      TotalOfAll(entries, n - 1, envs);
    }
  }

  lemma {:induction false} TotalOfNone(entries: seq<Entry>, n: nat)
    requires n <= |entries|
    ensures TotalIn(entries, n, {}) == NOTHING
  {
    if n > 0 {
      TotalOfNone(entries, n - 1);
    }
  }

  function SumOver(stats: map<string, Tally>, envs: seq<string>): Tally {
    if envs == [] then NOTHING else Plus(SoFar(stats, envs[0]), SumOver(stats, envs[1..]))
  }

  lemma {:induction false} SumIsTotal(entries: seq<Entry>, stats: map<string, Tally>, envs: seq<string>)
    requires forall env :: env in envs ==> SoFar(stats, env) == TotalIn(entries, |entries|, {env})
    requires forall i, j :: 0 <= i < j < |envs| ==> envs[i] != envs[j]
    ensures SumOver(stats, envs) == TotalIn(entries, |entries|, set env | env in envs)
  {
    var all := set env | env in envs;
    if envs == [] {
      assert all == {};
      TotalOfNone(entries, |entries|);
    } else {
      var rest := set env | env in envs[1..];
      assert envs == [envs[0]] + envs[1..];
      assert all == {envs[0]} + rest;
      SumIsTotal(entries, stats, envs[1..]);
      TotalSplits(entries, |entries|, {envs[0]}, rest);
    }
  }

  /** Nothing is lost or counted twice: however the environments are listed, their sums add up to
      the total. */
  lemma EnvironmentsAddUp(entries: seq<Entry>, stats: map<string, Tally>, envs: seq<string>)
    requires PerEnv(stats, entries, |entries|)
    requires forall i, j :: 0 <= i < j < |envs| ==> envs[i] != envs[j]
    requires forall env :: env in envs <==> env in stats
    ensures SumOver(stats, envs) == Total(entries, |entries|)
  {
    forall env | env in envs ensures SoFar(stats, env) == TotalIn(entries, |entries|, {env}) {
      assert env in stats;
    }
    SumIsTotal(entries, stats, envs);
    forall i | 0 <= i < |entries| ensures entries[i].env in envs {
      assert Occurs(entries, |entries|, entries[i].env);
    }
    TotalOfAll(entries, |entries|, set env | env in envs);
  }

  /** Bounds that every sum of groups respects. */
  predicate Bounded(t: Tally) {
    0 <= t.firstTop1 <= t.top1 <= t.top2 <= t.groups && t.firstTop1 <= t.firstGroups <= t.groups && t.regret >= 0.0
  }

  lemma {:induction false} TotalIsBounded(entries: seq<Entry>, n: nat)
    requires n <= |entries| && forall i :: 0 <= i < n ==> Bounded(entries[i].tally) && entries[i].tally.groups == 1
    ensures Bounded(Total(entries, n)) && Total(entries, n).groups == n
  {
    if n > 0 {
      TotalIsBounded(entries, n - 1);
    }
  }

  lemma {:induction false} TotalHasNoRegret(entries: seq<Entry>, n: nat)
    requires n <= |entries| && forall i :: 0 <= i < n ==> entries[i].tally.regret == 0.0
    ensures Total(entries, n).regret == 0.0
  {
    if n > 0 {
      TotalHasNoRegret(entries, n - 1);
    }
  }

  /** Every group's best action was predicted. */
  predicate Perfect(t: Tally) {
    t.top1 == t.top2 == t.groups && t.firstTop1 == t.firstGroups && t.regret == 0.0
  }

  lemma {:induction false} TotalIsPerfect(entries: seq<Entry>, n: nat)
    requires n <= |entries| && forall i :: 0 <= i < n ==> Perfect(entries[i].tally)
    ensures Perfect(Total(entries, n))
  {
    if n > 0 {
      TotalIsPerfect(entries, n - 1);
    }
  }
}
