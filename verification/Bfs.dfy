/** Breadth-first exploration of a world's states through snapshots. */
module Bfs {

  /** A deterministic world seen from its snapshots: which states are over, and where the
      candidate actions lead. */
  datatype Graph<!S(!new)> = Graph(terminal: S -> bool, successors: S -> seq<S>)

  /** A snapshot together with the depth at which it was taken. */
  datatype Placed<+S> = Placed(state: S, depth: nat)

  /** The state is the end of some path of exactly d steps, none of them taken from a terminal state. */
  ghost predicate Reach<S(!new)>(g: Graph<S>, start: S, s: S, d: nat)
    decreases d
  {
    if d == 0 then s == start else exists p :: Reach(g, start, p, d - 1) && LeadsTo(g, p, s)
  }

  predicate LeadsTo<S(!new, ==)>(g: Graph<S>, p: S, s: S) {
    !g.terminal(p) && s in g.successors(p)
  }

  /** What holds at the start and is carried along every step holds wherever a path ends. */
  lemma {:induction false} ReachKeeps<S(!new)>(g: Graph<S>, start: S, holds: (S, nat) -> bool, s: S, d: nat)
    requires holds(start, 0)
    requires forall p, t, e: nat :: holds(p, e) && LeadsTo(g, p, t) ==> holds(t, e + 1)
    requires Reach(g, start, s, d)
    ensures holds(s, d)
    decreases d
  {
    if d > 0 {
      var p :| Reach(g, start, p, d - 1) && LeadsTo(g, p, s);
      ReachKeeps(g, start, holds, p, d - 1);
    }
  }

  lemma ReachOn<S(!new)>(g: Graph<S>, start: S, p: S, s: S, d: nat)
    requires Reach(g, start, p, d) && LeadsTo(g, p, s)
    ensures Reach(g, start, s, d + 1)
  {
  }

  /** A path given by its states reaches each of them. */
  lemma {:induction false} ReachAlong<S(!new)>(g: Graph<S>, path: nat -> S, d: nat)
    requires forall e: nat :: e < d ==> LeadsTo(g, path(e), path(e + 1))
    ensures Reach(g, path(0), path(d), d)
  {
    if d > 0 {
      ReachAlong(g, path, d - 1);
      assert LeadsTo(g, path(d - 1), path(d - 1 + 1));
      ReachOn(g, path(0), path(d - 1), path(d), d - 1);
    }
  }

  /** d is the length of a shortest path to the state. */
  ghost predicate Nearest<S(!new)>(g: Graph<S>, start: S, s: S, d: nat) {
    Reach(g, start, s, d) && forall e: nat :: e < d ==> !Reach(g, start, s, e)
  }

  function PlaceAll<S>(states: seq<S>, depth: nat): (placed: seq<Placed<S>>)
    ensures |placed| == |states| && forall i :: 0 <= i < |states| ==> placed[i] == Placed(states[i], depth)
  {
    seq(|states|, i requires 0 <= i < |states| => Placed(states[i], depth))
  }

  /** How many pops the exploration below a state can cause with the depth that is left. */
  function Weight<S(!new)>(g: Graph<S>, s: S, left: nat): nat
    decreases left, 0, 0
  {
    if g.terminal(s) || left == 0 then 1 else 1 + TotalWeight(g, g.successors(s), left - 1)
  }

  function TotalWeight<S(!new)>(g: Graph<S>, states: seq<S>, left: nat): nat
    decreases left, 1, |states|
  {
    if states == [] then 0 else Weight(g, states[0], left) + TotalWeight(g, states[1..], left)
  }

  function QueueWeight<S(!new)>(g: Graph<S>, queue: seq<Placed<S>>, bound: nat): nat {
    if queue == [] then 0 else
    var left := if queue[0].depth <= bound then bound - queue[0].depth else 0;
    Weight(g, queue[0].state, left) + QueueWeight(g, queue[1..], bound)
  }

  /** Replacing the head of the queue by its successors one level down makes the queue lighter. */
  lemma {:induction false} PushedWeight<S(!new)>(g: Graph<S>, rest: seq<Placed<S>>, states: seq<S>, depth: nat,
      bound: nat)
    requires depth <= bound
    ensures QueueWeight(g, rest + PlaceAll(states, depth), bound)
         == QueueWeight(g, rest, bound) + TotalWeight(g, states, bound - depth)
    decreases |rest| + |states|
  {
    if rest != [] {
      assert (rest + PlaceAll(states, depth))[1..] == rest[1..] + PlaceAll(states, depth);
      PushedWeight(g, rest[1..], states, depth, bound);
    } else if states != [] {
      assert rest + PlaceAll(states, depth) == PlaceAll(states, depth);
      assert PlaceAll(states, depth)[1..] == [] + PlaceAll(states[1..], depth);
      PushedWeight(g, [], states[1..], depth, bound);
    }
  }

  /** The depth bookkeeping of the search: what was taken up, at which depth, and what still waits. */
  ghost predicate Found<S(!new)>(depthOf: map<S, nat>, s: S, d: nat) {
    s in depthOf && depthOf[s] <= d
  }

  ghost predicate Waits<S(!new)>(queue: seq<Placed<S>>, s: S, d: nat) {
    exists i :: 0 <= i < |queue| && queue[i].state == s && queue[i].depth <= d
  }

  ghost predicate Covered<S(!new)>(depthOf: map<S, nat>, queue: seq<Placed<S>>, s: S, d: nat) {
    Found(depthOf, s, d) || Waits(queue, s, d)
  }

  /** Everything taken up or waiting has a path of its depth, within the bound. */
  ghost predicate Sound<S(!new)>(g: Graph<S>, start: S, depthOf: map<S, nat>, queue: seq<Placed<S>>, bound: nat) {
    && (forall s :: s in depthOf ==> depthOf[s] <= bound && Reach(g, start, s, depthOf[s]))
    && (forall i :: 0 <= i < |queue| ==> queue[i].depth <= bound && Reach(g, start, queue[i].state, queue[i].depth))
  }

  /** The queue spans at most two levels, and nothing was taken up deeper than its head. */
  ghost predicate Layered<S(!new)>(depthOf: map<S, nat>, queue: seq<Placed<S>>) {
    && (forall i, j :: 0 <= i < j < |queue| ==> queue[i].depth <= queue[j].depth <= queue[0].depth + 1)
    && (queue != [] ==> forall s :: s in depthOf ==> depthOf[s] <= queue[0].depth)
  }

  /** The start and every successor of a state taken up is itself taken up or waiting, at no greater depth. */
  ghost predicate Closed<S(!new)>(g: Graph<S>, start: S, depthOf: map<S, nat>, queue: seq<Placed<S>>, bound: nat) {
    && Covered(depthOf, queue, start, 0)
    && forall s, t :: s in depthOf && depthOf[s] < bound && LeadsTo(g, s, t) ==>
         Covered(depthOf, queue, t, depthOf[s] + 1)
  }

  /** The list of results so far: the non-terminal states taken up, each once, by depth. */
  ghost predicate Lists<S(!new)>(g: Graph<S>, depthOf: map<S, nat>, results: seq<Placed<S>>) {
    && (forall r :: r in results <==> r.state in depthOf && depthOf[r.state] == r.depth && !g.terminal(r.state))
    && (forall i, j :: 0 <= i < j < |results| ==> results[i].state != results[j].state)
    && (forall i, j :: 0 <= i < j < |results| ==> results[i].depth <= results[j].depth)
  }

  /** Popping an item that was taken up before loses nothing: it was taken up at no greater depth. */
  lemma SkipKeeps<S(!new)>(g: Graph<S>, start: S, depthOf: map<S, nat>, queue: seq<Placed<S>>, bound: nat)
    requires queue != [] && queue[0].state in depthOf
    requires Sound(g, start, depthOf, queue, bound) && Layered(depthOf, queue)
      && Closed(g, start, depthOf, queue, bound)
    ensures Sound(g, start, depthOf, queue[1..], bound) && Layered(depthOf, queue[1..])
    ensures Closed(g, start, depthOf, queue[1..], bound)
  {
    forall s, d: nat | Covered(depthOf, queue, s, d) ensures Covered(depthOf, queue[1..], s, d) {
      PopCovers(depthOf, queue, s, d);
    }
  }

  lemma PopCovers<S(!new)>(depthOf: map<S, nat>, queue: seq<Placed<S>>, s: S, d: nat)
    requires queue != [] && Covered(depthOf, queue, s, d)
    requires Layered(depthOf, queue)
    ensures Covered(depthOf, queue[1..], s, d) || (s == queue[0].state && queue[0].depth <= d && !(s in depthOf))
  {
    if Waits(queue, s, d) {
      var i :| 0 <= i < |queue| && queue[i].state == s && queue[i].depth <= d;
      if i > 0 {
        assert queue[1..][i - 1] == queue[i];
      }
    }
  }

  function Pushed<S(!new)>(g: Graph<S>, head: Placed<S>, bound: nat): seq<Placed<S>> {
    if g.terminal(head.state) || head.depth >= bound then [] else PlaceAll(g.successors(head.state), head.depth + 1)
  }

  /** Taking up the head, and queueing its successors one level down, keeps the bookkeeping. */
  lemma TakeKeepsSound<S(!new)>(g: Graph<S>, start: S, depthOf: map<S, nat>, queue: seq<Placed<S>>, bound: nat)
    requires queue != [] && queue[0].state !in depthOf && Sound(g, start, depthOf, queue, bound)
    ensures Sound(g, start, depthOf[queue[0].state := queue[0].depth], queue[1..] + Pushed(g, queue[0], bound), bound)
  {
    var pushed := Pushed(g, queue[0], bound);
    forall i | 0 <= i < |pushed| ensures Reach(g, start, pushed[i].state, pushed[i].depth) {
      assert LeadsTo(g, queue[0].state, pushed[i].state);
    }
  }

  lemma TakeKeepsLayered<S(!new)>(g: Graph<S>, depthOf: map<S, nat>, queue: seq<Placed<S>>, bound: nat)
    requires queue != [] && queue[0].state !in depthOf && Layered(depthOf, queue)
    ensures Layered(depthOf[queue[0].state := queue[0].depth], queue[1..] + Pushed(g, queue[0], bound))
  {
  }

  lemma TakeCovers<S(!new)>(g: Graph<S>, depthOf: map<S, nat>, queue: seq<Placed<S>>, bound: nat, t: S, e: nat)
    requires queue != [] && queue[0].state !in depthOf && Layered(depthOf, queue)
    requires Covered(depthOf, queue, t, e)
    ensures Covered(depthOf[queue[0].state := queue[0].depth], queue[1..] + Pushed(g, queue[0], bound), t, e)
  {
    PopCovers(depthOf, queue, t, e);
    if Waits(queue[1..], t, e) {
      var i :| 0 <= i < |queue[1..]| && queue[1..][i].state == t && queue[1..][i].depth <= e;
      assert (queue[1..] + Pushed(g, queue[0], bound))[i] == queue[1..][i];
    }
  }

  lemma TakeKeepsClosed<S(!new)>(g: Graph<S>, start: S, depthOf: map<S, nat>, queue: seq<Placed<S>>, bound: nat)
    requires queue != [] && queue[0].state !in depthOf
    requires Layered(depthOf, queue) && Closed(g, start, depthOf, queue, bound)
    ensures Closed(g, start, depthOf[queue[0].state := queue[0].depth], queue[1..] + Pushed(g, queue[0], bound), bound)
  {
    var head := queue[0];
    var taken, after := depthOf[head.state := head.depth], queue[1..] + Pushed(g, head, bound);
    TakeCovers(g, depthOf, queue, bound, start, 0);
    forall s, t | s in taken && taken[s] < bound && LeadsTo(g, s, t) ensures Covered(taken, after, t, taken[s] + 1) {
      if s == head.state {
        var i :| 0 <= i < |g.successors(s)| && g.successors(s)[i] == t;
        assert after[|queue[1..]| + i] == Placed(t, head.depth + 1);
      } else {
        TakeCovers(g, depthOf, queue, bound, t, depthOf[s] + 1);
      }
    }
  }

  /** With nothing waiting, every state within the bound was taken up at its shortest distance. */
  lemma {:induction false} ClosedIsComplete<S(!new)>(g: Graph<S>, start: S, depthOf: map<S, nat>, bound: nat, s: S,
      d: nat)
    requires Closed(g, start, depthOf, [], bound)
    requires d <= bound && Reach(g, start, s, d)
    ensures Found(depthOf, s, d)
    decreases d
  {
    if d > 0 {
      var p :| Reach(g, start, p, d - 1) && LeadsTo(g, p, s);
      ClosedIsComplete(g, start, depthOf, bound, p, d - 1);
      assert Covered(depthOf, [], s, depthOf[p] + 1);
    } else {
      assert Covered(depthOf, [], start, 0);
    }
  }

  /** What the exploration returns: exactly the non-terminal states within the bound, each once, with
      its shortest distance, nearest first. */
  ghost predicate Exact<S(!new)>(g: Graph<S>, start: S, results: seq<Placed<S>>, bound: nat) {
    && (forall s, d: nat :: Placed(s, d) in results <==> !g.terminal(s) && d <= bound && Nearest(g, start, s, d))
    && (forall i, j :: 0 <= i < j < |results| ==> results[i].state != results[j].state)
    && (forall i, j :: 0 <= i < j < |results| ==> results[i].depth <= results[j].depth)
  }

  lemma DrainedIsExact<S(!new)>(g: Graph<S>, start: S, depthOf: map<S, nat>, results: seq<Placed<S>>, bound: nat)
    requires Sound(g, start, depthOf, [], bound) && Closed(g, start, depthOf, [], bound) && Lists(g, depthOf, results)
    ensures Exact(g, start, results, bound)
  {
    forall s, d: nat | Placed(s, d) in results
      ensures !g.terminal(s) && d <= bound && Nearest(g, start, s, d)
    {
      forall e: nat | e < d ensures !Reach(g, start, s, e) {
        if Reach(g, start, s, e) {
          ClosedIsComplete(g, start, depthOf, bound, s, e);
        }
      }
    }
    forall s, d: nat | !g.terminal(s) && d <= bound && Nearest(g, start, s, d) ensures Placed(s, d) in results {
      ClosedIsComplete(g, start, depthOf, bound, s, d);
      assert Reach(g, start, s, depthOf[s]);
    }
  }

  lemma StartComesFirst<S(!new)>(g: Graph<S>, start: S, results: seq<Placed<S>>, bound: nat)
    requires Exact(g, start, results, bound) && !g.terminal(start)
    ensures results != [] && results[0] == Placed(start, 0)
  {
    assert Nearest(g, start, start, 0);
    var k :| 0 <= k < |results| && results[k] == Placed(start, 0);
    assert results[0].depth == 0;
    assert Placed(results[0].state, results[0].depth) in results;
    assert Reach(g, start, results[0].state, 0);
  }

  /** The invariant of the exploration. */
  ghost predicate Exploring<S(!new)>(g: Graph<S>, start: S, depthOf: map<S, nat>, queue: seq<Placed<S>>,
                                     results: seq<Placed<S>>, bound: nat)
  {
    && Sound(g, start, depthOf, queue, bound)
    && Layered(depthOf, queue)
    && Closed(g, start, depthOf, queue, bound)
    && Lists(g, depthOf, results)
  }

  lemma ExploringFromStart<S(!new)>(g: Graph<S>, start: S, bound: nat)
    ensures Exploring(g, start, map[], [Placed(start, 0)], [], bound)
  {
    assert Waits([Placed(start, 0)], start, 0) by { assert [Placed(start, 0)][0].state == start; }
  }

  lemma SkipStep<S(!new)>(g: Graph<S>, start: S, depthOf: map<S, nat>, queue: seq<Placed<S>>,
                          results: seq<Placed<S>>, bound: nat)
    requires Exploring(g, start, depthOf, queue, results, bound) && queue != [] && queue[0].state in depthOf
    ensures Exploring(g, start, depthOf, queue[1..], results, bound)
    ensures QueueWeight(g, queue[1..], bound) < QueueWeight(g, queue, bound)
  {
    SkipKeeps(g, start, depthOf, queue, bound);
  }

  lemma TakeStep<S(!new)>(g: Graph<S>, start: S, depthOf: map<S, nat>, queue: seq<Placed<S>>,
                          results: seq<Placed<S>>, bound: nat)
    requires Exploring(g, start, depthOf, queue, results, bound) && queue != [] && queue[0].state !in depthOf
    ensures Exploring(g, start, depthOf[queue[0].state := queue[0].depth], queue[1..] + Pushed(g, queue[0], bound),
                      if g.terminal(queue[0].state) then results else results + [queue[0]], bound)
  {
    TakeKeepsSound(g, start, depthOf, queue, bound);
    TakeKeepsLayered(g, depthOf, queue, bound);
    TakeKeepsClosed(g, start, depthOf, queue, bound);
    TakeLists(g, depthOf, queue, results);
  }

  lemma TakeLightens<S(!new)>(g: Graph<S>, queue: seq<Placed<S>>, bound: nat)
    requires queue != [] && queue[0].depth <= bound
    ensures QueueWeight(g, queue[1..] + Pushed(g, queue[0], bound), bound) < QueueWeight(g, queue, bound)
  {
    if g.terminal(queue[0].state) || queue[0].depth >= bound {
      assert queue[1..] + [] == queue[1..];
    } else {
      PushedWeight(g, queue[1..], g.successors(queue[0].state), queue[0].depth + 1, bound);
    }
  }

  lemma TakeLists<S(!new)>(g: Graph<S>, depthOf: map<S, nat>, queue: seq<Placed<S>>, results: seq<Placed<S>>)
    requires queue != [] && queue[0].state !in depthOf && Layered(depthOf, queue) && Lists(g, depthOf, results)
    ensures Lists(g, depthOf[queue[0].state := queue[0].depth],
                  if g.terminal(queue[0].state) then results else results + [queue[0]])
  {
    forall i | 0 <= i < |results| ensures results[i].depth <= queue[0].depth && results[i].state != queue[0].state {
      assert results[i] in results;
    }
  }

  /** The exploration. maxDepth may be negative; the start is looked at in any case, which is why the
      fallback for an empty result list never applies. */
  method Explore<S(!new, ==)>(g: Graph<S>, start: S, maxDepth: int) returns (results: seq<Placed<S>>)
    ensures Exact(g, start, results, if maxDepth > 0 then maxDepth else 0)
    ensures !g.terminal(start) ==> results != [] && results[0] == Placed(start, 0)
  {
    ghost var bound: nat := if maxDepth > 0 then maxDepth else 0;
    var queue: seq<Placed<S>> := [Placed(start, 0)];
    var seen: set<S> := {};
    results := [];
    ghost var depthOf: map<S, nat> := map[];
    ExploringFromStart(g, start, bound);
    while queue != []
      invariant seen == depthOf.Keys
      invariant Exploring(g, start, depthOf, queue, results, bound)
      decreases QueueWeight(g, queue, bound)
    {
      var head := queue[0];
      if head.state in seen {
        SkipStep(g, start, depthOf, queue, results, bound);
        queue := queue[1..];
      } else {
        TakeStep(g, start, depthOf, queue, results, bound);
        TakeLightens(g, queue, bound);
        seen := seen + {head.state};
        depthOf := depthOf[head.state := head.depth];
        if !g.terminal(head.state) {
          results := results + [head];
        }
        queue := Advance(g, queue, maxDepth, bound);
      }
    }
    DrainedIsExact(g, start, depthOf, results, bound);
    if !g.terminal(start) {
      StartComesFirst(g, start, results, bound);
    }
  }

  /** Pop the head and queue its successors, unless it is terminal or at the depth limit. */
  method Advance<S(!new)>(g: Graph<S>, queue: seq<Placed<S>>, maxDepth: int, ghost bound: nat)
    returns (advanced: seq<Placed<S>>)
    requires queue != [] && bound == if maxDepth > 0 then maxDepth else 0
    ensures advanced == queue[1..] + Pushed(g, queue[0], bound)
  {
    var state, depth := queue[0].state, queue[0].depth;
    advanced := queue[1..];
    if g.terminal(state) || depth >= maxDepth {
      return;
    }
    var next := g.successors(state);
    for i := 0 to |next|
      invariant advanced == queue[1..] + PlaceAll(next[..i], depth + 1)
    {
      if !g.terminal(next[i]) || depth + 1 <= maxDepth {
        advanced := advanced + [Placed(next[i], depth + 1)];
      }
    }
    assert next[..|next|] == next;
  }
}
