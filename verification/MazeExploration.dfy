/** The states that breadth-first exploration collects from the memory maze. */
module MazeExploration {
  import opened Wrappers
  import opened Schema
  import opened Bfs
  import opened MemoryMazes

  function Next(w: Maze, a: Action): Maze
    requires a in Candidates(w)
  {
    Step(w, a).value.next
  }

  function Successors(w: Maze): seq<Maze> {
    seq(|Candidates(w)|, i requires 0 <= i < |Candidates(w)| => Next(w, Candidates(w)[i]))
  }

  const MAZE_GRAPH: Graph<Maze> := Graph((w: Maze) => w.terminal, Successors)

  /** The unfinished state after the given number of steps, with or without the hint. */
  function After(start: Maze, steps: nat, sawHint: bool): Maze {
    start.(steps := steps, sawHint := sawHint)
  }

  predicate Fresh(start: Maze) {
    !start.escaped && !start.terminal && start.steps == 0 && start.sawHint == start.visibility.Visible?
  }

  predicate Open(start: Maze, s: Maze, d: nat) {
    d < start.maxSteps && exists hint: bool :: Hinted(start, d, hint) && s == After(start, d, hint)
  }

  /** Which hint states occur after d steps: a visible maze always shows it, a hidden one first after a step. */
  predicate Hinted(start: Maze, d: nat, hint: bool) {
    if start.visibility.Visible? then hint else d > 0 || !hint
  }

  /** One step from an unfinished state: inspect shows the hint, a door without the hint changes nothing
      but the step count. */
  lemma StepStaysOpen(w: Maze, a: Action)
    requires a in Candidates(w) && !w.escaped && !w.terminal && !Next(w, a).terminal
    ensures Next(w, a) == After(w, w.steps + 1, w.sawHint || a.Inspect?)
  {
    assert Settled(w, Step(w, a).value);
  }

  lemma StepAdvances(w: Maze, hint: bool)
    requires !w.escaped && !w.terminal && w.steps + 1 < w.maxSteps && (w.sawHint ==> hint)
    ensures LeadsTo(MAZE_GRAPH, w, After(w, w.steps + 1, hint))
  {
    var i := if hint then 0 else 1;
    assert Successors(w)[i] == After(w, w.steps + 1, hint);
  }

  /** Every way on from an open state that is not the end leads to an open state. */
  lemma OpenLeadsToOpen(start: Maze, p: Maze, s: Maze, d: nat)
    requires Fresh(start) && Open(start, p, d) && LeadsTo(MAZE_GRAPH, p, s) && !s.terminal
    ensures Open(start, s, d + 1)
  {
    var i :| 0 <= i < |Successors(p)| && Successors(p)[i] == s;
    assert Candidates(p)[i] in Candidates(p);
    StepStaysOpen(p, Candidates(p)[i]);
    assert Hinted(start, d + 1, s.sawHint);
    assert s == After(start, d + 1, s.sawHint);
  }

  lemma StartIsOpen(start: Maze)
    requires Fresh(start)
    ensures Open(start, start, 0)
  {
    assert Hinted(start, 0, start.sawHint) && start == After(start, 0, start.sawHint);
  }

  /** The non-terminal states at d steps from the start are the open ones, and no others. */
  lemma ReachIsOpen(start: Maze, s: Maze, d: nat)
    requires Fresh(start) && Reach(MAZE_GRAPH, start, s, d) && !s.terminal
    ensures Open(start, s, d)
  {
    var overOrOpen := (w: Maze, e: nat) => w.terminal || Open(start, w, e);
    StartIsOpen(start);
    forall p: Maze, t: Maze, e: nat | overOrOpen(p, e) && LeadsTo(MAZE_GRAPH, p, t) ensures overOrOpen(t, e + 1) {
      if !t.terminal {
        OpenLeadsToOpen(start, p, t, e);
      }
    }
    ReachKeeps(MAZE_GRAPH, start, overOrOpen, s, d);
  }

  lemma OpenAdvances(start: Maze, d: nat, hint: bool)
    requires Fresh(start) && d + 1 < start.maxSteps && Hinted(start, d + 1, hint)
    ensures LeadsTo(MAZE_GRAPH, After(start, d, start.sawHint), After(start, d + 1, hint))
  {
    var p := After(start, d, start.sawHint);
    StepAdvances(p, hint);
    assert After(p, d + 1, hint) == After(start, d + 1, hint);
  }

  /** A way to an open state: keep the hint state of the start, and take the last step into the wanted one. */
  function WayTo(start: Maze, d: nat, hint: bool, e: nat): Maze {
    After(start, e, if e < d then start.sawHint else hint)
  }

  lemma WayLeadsOn(start: Maze, d: nat, hint: bool, e: nat)
    requires Fresh(start) && d < start.maxSteps && Hinted(start, d, hint) && e < d
    ensures LeadsTo(MAZE_GRAPH, WayTo(start, d, hint, e), WayTo(start, d, hint, e + 1))
  {
    OpenAdvances(start, e, if e + 1 < d then start.sawHint else hint);
  }

  lemma WayEnds(start: Maze, d: nat, hint: bool)
    requires Fresh(start) && Hinted(start, d, hint)
    ensures WayTo(start, d, hint, 0) == start && WayTo(start, d, hint, d) == After(start, d, hint)
  {
  }

  lemma OpenIsReached(start: Maze, d: nat, hint: bool)
    requires Fresh(start) && d < start.maxSteps && Hinted(start, d, hint)
    ensures Reach(MAZE_GRAPH, WayTo(start, d, hint, 0), WayTo(start, d, hint, d), d)
  {
    var path: nat -> Maze := (e: nat) => WayTo(start, d, hint, e);
    forall e: nat | e < d ensures LeadsTo(MAZE_GRAPH, path(e), path(e + 1)) {
      WayLeadsOn(start, d, hint, e);
    }
    ReachAlong(MAZE_GRAPH, path, d);
  }

  lemma OpenIsNearest(start: Maze, s: Maze, d: nat)
    requires Fresh(start) && !s.terminal
    ensures Nearest(MAZE_GRAPH, start, s, d) <==> Open(start, s, d)
  {
    if Open(start, s, d) {
      var hint :| Hinted(start, d, hint) && s == After(start, d, hint);
      OpenIsReached(start, d, hint);
      WayEnds(start, d, hint);
      forall e: nat | e < d ensures !Reach(MAZE_GRAPH, start, s, e) {
        if Reach(MAZE_GRAPH, start, s, e) {
          ReachIsOpen(start, s, e);
        }
      }
    } else if Nearest(MAZE_GRAPH, start, s, d) {
      ReachIsOpen(start, s, d);
    }
  }

  /** The expected table: the start, then at each depth the states with and without the hint. */
  function Table(start: Maze, depth: nat): seq<Placed<Maze>> {
    if depth == 0 then [Placed(start, 0)]
    else if start.visibility.Visible? then Table(start, depth - 1) + [Placed(After(start, depth, true), depth)]
    else Table(start, depth - 1) + [Placed(After(start, depth, false), depth), Placed(After(start, depth, true), depth)]
  }

  lemma {:induction false} TableHolds(start: Maze, depth: nat, s: Maze, d: nat)
    requires Fresh(start) && depth < start.maxSteps
    ensures Placed(s, d) in Table(start, depth) <==> d <= depth && Open(start, s, d)
  {
    if depth > 0 {
      TableHolds(start, depth - 1, s, d);
      if d == depth && Open(start, s, d) {
        var hint :| Hinted(start, d, hint) && s == After(start, d, hint);
      }
      assert Hinted(start, depth, true) && Open(start, After(start, depth, true), depth);
      if !start.visibility.Visible? {
        assert Hinted(start, depth, false) && Open(start, After(start, depth, false), depth);
      }
    } else {
      assert After(start, 0, start.sawHint) == start;
      assert Hinted(start, 0, start.sawHint);
    }
  }

  lemma {:induction false} TableIsDistinct(start: Maze, depth: nat)
    requires Fresh(start) && depth < start.maxSteps
    ensures |Table(start, depth)| == if start.visibility.Visible? then depth + 1 else 2 * depth + 1
    ensures Distinct(Table(start, depth))
  {
    if depth > 0 {
      TableIsDistinct(start, depth - 1);
      var front := Table(start, depth - 1);
      forall i | 0 <= i < |front| ensures front[i].depth < depth {
        assert Placed(front[i].state, front[i].depth) in front;
        TableHolds(start, depth - 1, front[i].state, front[i].depth);
      }
    }
  }

  ghost predicate Distinct<T(!new)>(s: seq<T>) {
    forall i, j :: 0 <= i < j < |s| ==> s[i] != s[j]
  }

  lemma {:induction false} DistinctCount<T(!new)>(s: seq<T>, elements: set<T>)
    requires Distinct(s) && (forall x :: x in s <==> x in elements)
    ensures |s| == |elements|
    decreases |s|
  {
    if s == [] {
      assert elements == {};
    } else {
      var last := s[|s| - 1];
      var front := s[..|s| - 1];
      assert s == front + [last];
      forall x ensures x in front <==> x in elements - {last} {
        if x in front {
          var i :| 0 <= i < |front| && front[i] == x;
          assert s[i] == x;
        }
        if x in elements - {last} {
          assert x in s;
        }
      }
      DistinctCount(front, elements - {last});
    }
  }

  lemma SameElementsSameLength<T(!new)>(a: seq<T>, b: seq<T>)
    requires Distinct(a) && Distinct(b) && (forall x :: x in a <==> x in b)
    ensures |a| == |b|
  {
    var elements := set x | x in a;
    DistinctCount(a, elements);
    DistinctCount(b, elements);
  }

  /** How deep the exploration gets: past the last step everything is terminal. */
  function Levels(start: Maze, bound: nat): nat {
    if bound < start.maxSteps then bound else start.maxSteps - 1
  }

  /** A hidden or partially hidden maze has one start and two states at every later depth. */
  lemma MazeCount(start: Maze, results: seq<Placed<Maze>>, bound: nat)
    requires Fresh(start) && Exact(MAZE_GRAPH, start, results, bound)
    ensures |results| == if start.visibility.Visible? then Levels(start, bound) + 1 else 2 * Levels(start, bound) + 1
  {
    var table := Table(start, Levels(start, bound));
    forall r: Placed<Maze> ensures r in results <==> r in table {
      assert r == Placed(r.state, r.depth);
      if !r.state.terminal {
        OpenIsNearest(start, r.state, r.depth);
      }
      TableHolds(start, Levels(start, bound), r.state, r.depth);
    }
    TableIsDistinct(start, Levels(start, bound));
    SameElementsSameLength(results, table);
  }

  /** The collector's call: depth limit one below the step budget, so 2 * maxSteps - 1 states. */
  method CollectMaze(target: string, doors: seq<string>, maxSteps: int, visibility: Visibility)
    returns (results: seq<Placed<Maze>>)
    requires 0 < |doors| && 0 < maxSteps
    ensures Exact(MAZE_GRAPH, Start(target, doors, maxSteps, visibility), results, maxSteps - 1)
    ensures |results| == if visibility.Visible? then maxSteps else 2 * maxSteps - 1
  {
    var start := Start(target, doors, maxSteps, visibility);
    results := Explore(MAZE_GRAPH, start, maxSteps - 1);
    MazeCount(start, results, maxSteps - 1);
  }
}
