/** Candidate groups: the rows of a feature data set that belong to the same decision. */
module CandidateSets {
  import opened Wrappers

  /** One row of the feature data set. A missing score counts as 0. */
  datatype Sample = Sample(candidateSet: string, env: string, stepIndex: int, score: Option<real>)

  datatype IndexGroup = IndexGroup(id: string, indices: seq<nat>)

  datatype RankingError = NoCandidateSets

  /** The positions below n that carry the identifier, in order. */
  function PositionsOf(meta: seq<Sample>, id: string, n: nat): (positions: seq<nat>)
    requires n <= |meta|
    ensures forall p: nat :: p in positions <==> p < n && meta[p].candidateSet == id
  {
    if n == 0 then []
    else PositionsOf(meta, id, n - 1) + if meta[n - 1].candidateSet == id then [n - 1] else []
  }

  function Listed(table: map<string, seq<nat>>, k: string): seq<nat> {
    if k in table then table[k] else []
  }

  /** Append n to the list of an identifier, opening the list if there is none. */
  function Put(table: map<string, seq<nat>>, id: string, n: nat): map<string, seq<nat>> {
    table[id := Listed(table, id) + [n]]
  }

  function First(positions: seq<nat>): int {
    if positions == [] then -1 else positions[0]
  }

  predicate HoldsFor(meta: seq<Sample>, table: map<string, seq<nat>>, n: nat, k: string)
    requires n <= |meta|
  {
    Listed(table, k) == if k == "" then [] else PositionsOf(meta, k, n)
  }

  /** The dictionary holds the positions of every identifier but the empty one. */
  ghost predicate Tabled(meta: seq<Sample>, table: map<string, seq<nat>>, n: nat)
    requires n <= |meta|
  {
    && (forall k :: HoldsFor(meta, table, n, k))
    && (forall k :: k in table ==> table[k] != [])
  }

  /** Its keys are in the order in which they first appeared. */
  ghost predicate Ordered(table: map<string, seq<nat>>, keys: seq<string>, n: nat) {
    && (forall k :: k in keys <==> k in table)
    && (forall i :: 0 <= i < |keys| ==> 0 <= First(Listed(table, keys[i])) < n)
    && (forall i, j :: 0 <= i < j < |keys| ==> First(Listed(table, keys[i])) < First(Listed(table, keys[j])))
  }

  lemma HoldsForNext(meta: seq<Sample>, table: map<string, seq<nat>>, n: nat, k: string)
    requires n < |meta| && HoldsFor(meta, table, n, k)
    ensures var id := meta[n].candidateSet;
      HoldsFor(meta, if id == "" then table else Put(table, id, n), n + 1, k)
  {
  }

  lemma TabledNext(meta: seq<Sample>, table: map<string, seq<nat>>, n: nat)
    requires n < |meta| && Tabled(meta, table, n)
    ensures var id := meta[n].candidateSet;
      Tabled(meta, if id == "" then table else Put(table, id, n), n + 1)
  {
    var id := meta[n].candidateSet;
    var next := if id == "" then table else Put(table, id, n);
    var m := n + 1;
    forall k ensures HoldsFor(meta, next, m, k) {
      HoldsForNext(meta, table, n, k);
    }
  }

  lemma HeadStays(table: map<string, seq<nat>>, id: string, n: nat, k: string)
    ensures First(Listed(Put(table, id, n), k))
         == if k == id && Listed(table, k) == [] then n else First(Listed(table, k))
  {
  }

  lemma OrderedNext(table: map<string, seq<nat>>, keys: seq<string>, id: string, n: nat)
    requires Ordered(table, keys, n) && forall k :: k in table ==> table[k] != []
    ensures Ordered(Put(table, id, n), if id in table then keys else keys + [id], n + 1)
  {
    var next, more := Put(table, id, n), if id in table then keys else keys + [id];
    forall i | 0 <= i < |keys| ensures more[i] == keys[i]
      && First(Listed(next, more[i])) == First(Listed(table, keys[i])) {
      assert keys[i] in keys;
      HeadStays(table, id, n, keys[i]);
    }
    HeadStays(table, id, n, id);
  }

  ghost predicate Grouped(meta: seq<Sample>, table: map<string, seq<nat>>, keys: seq<string>, n: nat)
    requires n <= |meta|
  {
    Tabled(meta, table, n) && Ordered(table, keys, n)
  }

  lemma GroupedStart(meta: seq<Sample>)
    ensures Grouped(meta, map[], [], 0)
  {
  }

  lemma GroupedNext(meta: seq<Sample>, table: map<string, seq<nat>>, keys: seq<string>, n: nat)
    requires n < |meta| && Grouped(meta, table, keys, n)
    ensures var id := meta[n].candidateSet;
      if id == "" then Grouped(meta, table, keys, n + 1)
      else Grouped(meta, Put(table, id, n), if id in table then keys else keys + [id], n + 1)
  {
    TabledNext(meta, table, n);
    if meta[n].candidateSet != "" {
      OrderedNext(table, keys, meta[n].candidateSet, n);
    }
  }

  /** The finished dictionary as a list of groups. */
  ghost predicate IsGrouping(meta: seq<Sample>, groups: seq<IndexGroup>) {
    && (forall g :: g in groups <==> g.id != "" && g.indices != [] && g.indices == PositionsOf(meta, g.id, |meta|))
    && (forall i, j :: 0 <= i < j < |groups| ==> First(groups[i].indices) < First(groups[j].indices))
  }

  function ListGroups(table: map<string, seq<nat>>, keys: seq<string>): (groups: seq<IndexGroup>)
    ensures |groups| == |keys|
    ensures forall i :: 0 <= i < |keys| ==> groups[i] == IndexGroup(keys[i], Listed(table, keys[i]))
  {
    seq(|keys|, i requires 0 <= i < |keys| => IndexGroup(keys[i], Listed(table, keys[i])))
  }

  lemma ListedIsGrouping(meta: seq<Sample>, table: map<string, seq<nat>>, keys: seq<string>)
    requires Grouped(meta, table, keys, |meta|)
    ensures IsGrouping(meta, ListGroups(table, keys))
  {
    var groups := ListGroups(table, keys);
    forall g | g in groups ensures g.id != "" && g.indices != [] && g.indices == PositionsOf(meta, g.id, |meta|) {
      var i :| 0 <= i < |keys| && groups[i] == g;
      assert keys[i] in keys && HoldsFor(meta, table, |meta|, keys[i]);
    }
    forall g: IndexGroup | g.id != "" && g.indices != [] && g.indices == PositionsOf(meta, g.id, |meta|)
      ensures g in groups
    {
      assert HoldsFor(meta, table, |meta|, g.id);
      assert g.id in keys;
      var i :| 0 <= i < |keys| && keys[i] == g.id;
      assert groups[i] == g;
    }
  }

  lemma NothingListed(meta: seq<Sample>, table: map<string, seq<nat>>, keys: seq<string>)
    requires Grouped(meta, table, keys, |meta|)
    ensures keys == [] <==> forall i :: 0 <= i < |meta| ==> meta[i].candidateSet == ""
  {
    if keys == [] {
      forall i | 0 <= i < |meta| ensures meta[i].candidateSet == "" {
        var id := meta[i].candidateSet;
        assert i in PositionsOf(meta, id, |meta|);
        assert id in table ==> id in keys;
        assert HoldsFor(meta, table, |meta|, id);
      }
    } else {
      assert keys[0] in keys;
      var positions := PositionsOf(meta, keys[0], |meta|);
      assert HoldsFor(meta, table, |meta|, keys[0]);
      assert positions[0] in positions;
    }
  }

  /** Samples with the same identifier form a group; groups come in the order of their first sample. */
  method CandidateGroups(meta: seq<Sample>) returns (result: Result<seq<IndexGroup>, RankingError>)
    ensures result.Err? <==> forall i :: 0 <= i < |meta| ==> meta[i].candidateSet == ""
    ensures result.Ok? ==> IsGrouping(meta, result.value)
  {
    var keys: seq<string>, table: map<string, seq<nat>> := [], map[];
    GroupedStart(meta);
    for n := 0 to |meta|
      invariant Grouped(meta, table, keys, n)
    {
      var id := meta[n].candidateSet;
      GroupedNext(meta, table, keys, n);
      if id == "" {
        continue;
      }
      keys, table := if id in table then keys else keys + [id], Put(table, id, n);
    }
    NothingListed(meta, table, keys);
    if keys == [] {
      return Err(NoCandidateSets);
    }
    ListedIsGrouping(meta, table, keys);
    result := Ok(ListGroups(table, keys));
  }
}
