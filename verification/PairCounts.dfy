/** The pair counters of the ranking metrics count pairs of candidates, each once, over all groups. */
module PairCounts {
  import opened Wrappers
  import opened CandidateSets
  import opened Ranking

  /** The group's candidates l and k differ, and if asked for, are predicted in their true order. */
  predicate Ranked(g: Group, l: nat, k: nat, onlyCorrect: bool) {
    && l < k < |g.actual|
    && (g.actual[l] > g.actual[k] ==> onlyCorrect ==> g.predicted[l] > g.predicted[k])
    && (g.actual[l] < g.actual[k] ==> onlyCorrect ==> g.predicted[l] < g.predicted[k])
    && g.actual[l] != g.actual[k]
  }

  /** A pair of positions in one of the groups. */
  datatype Place = Place(group: nat, left: nat, right: nat)

  predicate InPlace(groups: seq<Group>, p: Place, onlyCorrect: bool) {
    p.group < |groups| && Ranked(groups[p.group], p.left, p.right, onlyCorrect)
  }

  /** The pairs in reading order before right candidate r of left candidate l of group n. */
  ghost predicate ReadBefore(p: Place, n: nat, l: nat, r: nat) {
    p.group < n || (p.group == n && (p.left < l || (p.left == l && p.right < r)))
  }

  /** The set holds exactly the pairs read so far. */
  ghost predicate HasRead(groups: seq<Group>, found: set<Place>, n: nat, l: nat, r: nat, onlyCorrect: bool) {
    forall p :: p in found <==> InPlace(groups, p, onlyCorrect) && ReadBefore(p, n, l, r)
  }

  lemma CountedIsRanked(g: Group, l: nat, k: nat, onlyCorrect: bool)
    requires l < k < |g.actual|
    ensures Counted(g, l, k, onlyCorrect) <==> Ranked(g, l, k, onlyCorrect)
  {
    SameSign(g.actual[l] - g.actual[k], g.predicted[l] - g.predicted[k]);
  }

  lemma SameSign(x: real, y: real)
    ensures x * y > 0.0 <==> (x > 0.0 && y > 0.0) || (x < 0.0 && y < 0.0)
  {
    if x > 0.0 && y > 0.0 {
      assert x * y > 0.0;
    } else if x < 0.0 && y < 0.0 {
      assert x * y == (-x) * (-y) > 0.0;
    } else if x > 0.0 {
      assert x * (-y) >= 0.0;
    } else if x < 0.0 {
      assert (-x) * y >= 0.0;
    }
  }

  lemma NextIsRead(p: Place, n: nat, l: nat, k: nat)
    ensures ReadBefore(p, n, l, k + 1) <==> ReadBefore(p, n, l, k) || p == Place(n, l, k)
    ensures !ReadBefore(Place(n, l, k), n, l, k)
  {
    assert p == Place(p.group, p.left, p.right);
  }

  /** Reading one pair more. */
  lemma ReadPair(groups: seq<Group>, found: set<Place>, n: nat, l: nat, k: nat, onlyCorrect: bool)
      returns (more: set<Place>)
    requires n < |groups| && HasRead(groups, found, n, l, k, onlyCorrect)
    ensures HasRead(groups, more, n, l, k + 1, onlyCorrect)
    ensures |more| == |found| + if Ranked(groups[n], l, k, onlyCorrect) then 1 else 0
  {
    var p := Place(n, l, k);
    var ranked := Ranked(groups[n], l, k, onlyCorrect);
    assert ranked <==> InPlace(groups, p, onlyCorrect);
    NextIsRead(p, n, l, k);
    more := if ranked then found + {p} else found;
    forall q: Place
      ensures q in more <==> InPlace(groups, q, onlyCorrect) && ReadBefore(q, n, l, k + 1)
    {
      NextIsRead(q, n, l, k);
    }
  }

  /** Left of l + 1 there is nothing to read. */
  lemma RowOpens(groups: seq<Group>, found: set<Place>, n: nat, l: nat, onlyCorrect: bool)
    requires HasRead(groups, found, n, l, 0, onlyCorrect)
    ensures HasRead(groups, found, n, l, l + 1, onlyCorrect)
  {
    forall p: Place | InPlace(groups, p, onlyCorrect)
      ensures ReadBefore(p, n, l, l + 1) <==> ReadBefore(p, n, l, 0)
    {
      assert p.left < p.right;
    }
  }

  lemma RowNext(g: Group, l: nat, r: nat, onlyCorrect: bool)
    requires l + 1 < r <= |g.actual|
    ensures Row(g, l, r, onlyCorrect)
         == Row(g, l, r - 1, onlyCorrect) + if Ranked(g, l, r - 1, onlyCorrect) then 1 else 0
  {
    CountedIsRanked(g, l, r - 1, onlyCorrect);
  }

  /** Reading one row of a group. */
  lemma {:induction false} RowReads(groups: seq<Group>, found: set<Place>, n: nat, l: nat, r: nat, onlyCorrect: bool)
      returns (more: set<Place>)
    requires n < |groups| && l < r <= |groups[n].actual| && HasRead(groups, found, n, l, 0, onlyCorrect)
    ensures HasRead(groups, more, n, l, r, onlyCorrect)
    ensures |more| == |found| + Row(groups[n], l, r, onlyCorrect)
    decreases r
  {
    if r == l + 1 {
      RowOpens(groups, found, n, l, onlyCorrect);
      more := found;
    } else {
      var before := RowReads(groups, found, n, l, r - 1, onlyCorrect);
      RowNext(groups[n], l, r, onlyCorrect);
      more := ReadPair(groups, before, n, l, r - 1, onlyCorrect);
    }
  }

  /** Reading the rows of a group. */
  lemma {:induction false} GroupReads(groups: seq<Group>, found: set<Place>, n: nat, l: nat, onlyCorrect: bool)
      returns (more: set<Place>)
    requires n < |groups| && l <= |groups[n].actual| && HasRead(groups, found, n, 0, 0, onlyCorrect)
    ensures HasRead(groups, more, n, l, 0, onlyCorrect) && |more| == |found| + Pairs(groups[n], l, onlyCorrect)
  {
    if l == 0 {
      more := found;
    } else {
      var size := |groups[n].actual|;
      var before := GroupReads(groups, found, n, l - 1, onlyCorrect);
      more := RowReads(groups, before, n, l - 1, size, onlyCorrect);
      assert forall p :: InPlace(groups, p, onlyCorrect) ==>
        (ReadBefore(p, n, l, 0) <==> ReadBefore(p, n, l - 1, size));
    }
  }

  /** The counter is the number of pairs in the first n groups, each counted once. */
  lemma {:induction false} PairsAreCounted(groups: seq<Group>, n: nat, onlyCorrect: bool) returns (found: set<Place>)
    requires n <= |groups|
    ensures forall p :: p in found <==> p.group < n && InPlace(groups, p, onlyCorrect)
    ensures |found| == AllPairs(groups, n, onlyCorrect)
  {
    if n == 0 {
      found := {};
    } else {
      var size := |groups[n - 1].actual|;
      var before := PairsAreCounted(groups, n - 1, onlyCorrect);
      assert HasRead(groups, before, n - 1, 0, 0, onlyCorrect);
      found := GroupReads(groups, before, n - 1, size, onlyCorrect);
      assert forall p :: InPlace(groups, p, onlyCorrect) ==> (p.group < n <==> ReadBefore(p, n - 1, size, 0));
    }
  }

  // ---------- what a group takes from its samples ----------

  function Scored(meta: seq<Sample>): (scored: seq<Sample>)
    ensures |scored| == |meta|
    ensures forall i :: 0 <= i < |meta| ==>
      scored[i] == if meta[i].score == None then meta[i].(score := Some(0.0)) else meta[i]
  {
    seq(|meta|, i requires 0 <= i < |meta| => if meta[i].score == None then meta[i].(score := Some(0.0)) else meta[i])
  }

  /** A missing score counts as 0, a given one as it is, and the first sample says where and when the group was taken.
      */
  lemma GroupTakesSamples(meta: seq<Sample>, predicted: nat -> real, indices: seq<nat>)
    requires indices != [] && forall i :: 0 <= i < |indices| ==> indices[i] < |meta|
    ensures var g := GroupOf(meta, predicted, indices);
      && g == GroupOf(Scored(meta), predicted, indices)
      && (forall i :: 0 <= i < |indices| ==> Some(g.actual[i]) == Scored(meta)[indices[i]].score)
      && (forall i :: 0 <= i < |indices| ==> g.predicted[i] == predicted(indices[i]))
      && g.env == meta[indices[0]].env && (g.firstStep <==> meta[indices[0]].stepIndex == 0)
  {
    var g, h := GroupOf(meta, predicted, indices), GroupOf(Scored(meta), predicted, indices);
    assert g.actual == h.actual && g.predicted == h.predicted;
  }
}
