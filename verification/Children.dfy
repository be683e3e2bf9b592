/** Which children of an item a promotion looks at, and when it overlooks one. */
module Children {
  import opened Wrappers
  import opened WorkStates
  import opened Ledgers
  import opened WorkQueues
  import opened WorkServices
  import opened ServiceResults

  function ChildrenOf(b: Books, parent: int): set<int> {
    set c | c in b.items && b.items[c].parent == Some(parent) && b.items[c].kind == SelfPatch
  }

  function UsableOf(b: Books, parent: int): set<int> {
    set c | c in ChildrenOf(b, parent) && IsUsable(b.items[c].status)
  }

  predicate Distinct(list: seq<int>) {
    forall i, j :: 0 <= i < j < |list| ==> list[i] != list[j]
  }

  function Members(list: seq<int>): set<int> {
    set x | x in list
  }

  lemma {:induction false} DistinctCounts(list: seq<int>)
    requires Distinct(list)
    ensures |Members(list)| == |list|
  {
    if list != [] {
      var last := |list| - 1;
      DistinctCounts(list[..last]);
      assert Members(list) == Members(list[..last]) + {list[last]};
    }
  }

  lemma CountsAtMost(small: set<int>, large: set<int>)
    requires small <= large
    ensures |small| <= |large| && (|small| == |large| ==> small == large)
  {
    assert large == small + (large - small);
  }

  /** Any number of members of a set can be listed. */
  lemma {:induction false} CanBeListed(pool: set<int>, n: nat) returns (list: seq<int>)
    requires n <= |pool|
    ensures |list| == n && Distinct(list) && Members(list) <= pool
  {
    if n == 0 {
      list := [];
    } else {
      assert exists x :: x in pool by {
        if forall x :: x !in pool {
          assert false;
        }
      }
      var x :| x in pool;
      var rest := CanBeListed(pool - {x}, n - 1);
      assert forall i :: 0 <= i < |rest| ==> rest[i] in Members(rest);
      list := [x] + rest;
      assert Members(list) == {x} + Members(rest);
    }
  }

  /** A list of distinct children of the right length is a listing. */
  lemma MakesListing(b: Books, parent: int, list: seq<int>)
    requires Distinct(list) && Members(list) <= ChildrenOf(b, parent)
    requires |list| == if |ChildrenOf(b, parent)| < 10 then |ChildrenOf(b, parent)| else 10
    ensures IsListing(b, parent, list)
  {
    DistinctCounts(list);
    forall i | 0 <= i < |list| ensures IsChild(b, list[i], parent) {
      assert list[i] in Members(list);
    }
    if |list| < 10 {
      CountsAtMost(Members(list), ChildrenOf(b, parent));
      forall c | c in b.items && IsChild(b, c, parent) ensures c in list {
        assert c in ChildrenOf(b, parent);
      }
    }
  }

  /** There always is a listing. It is of all children if there are fewer than ten, and else of ten. */
  lemma ListingExists(b: Books, parent: int) returns (listed: seq<int>)
    ensures IsListing(b, parent, listed)
  {
    var children := ChildrenOf(b, parent);
    listed := CanBeListed(children, if |children| < 10 then |children| else 10);
    MakesListing(b, parent, listed);
  }

  lemma ShortListsAll(b: Books, parent: int, listed: seq<int>)
    requires IsListing(b, parent, listed) && |listed| < 10
    ensures ChildrenOf(b, parent) <= Members(listed)
  {
    forall c | c in ChildrenOf(b, parent) ensures c in listed {
      assert IsChild(b, c, parent);
    }
  }

  lemma ListingLength(b: Books, parent: int, listed: seq<int>)
    requires IsListing(b, parent, listed)
    ensures Members(listed) <= ChildrenOf(b, parent)
    ensures |listed| == if |ChildrenOf(b, parent)| < 10 then |ChildrenOf(b, parent)| else 10
  {
    var children := ChildrenOf(b, parent);
    forall c | c in Members(listed) ensures c in children {
      var i :| 0 <= i < |listed| && listed[i] == c;
      assert IsChild(b, listed[i], parent);
    }
    assert Distinct(listed);
    DistinctCounts(listed);
    CountsAtMost(Members(listed), children);
    if |listed| < 10 {
      ShortListsAll(b, parent, listed);
      assert Members(listed) == children;
    }
  }

  /** Under the listing the promotion creates another child, although one is usable. */
  predicate Overlooks(d: Desk, work: int, listed: seq<int>, child: int, s: Submission)
    requires child !in d.books.items && s.job !in d.books.jobs
  {
    && IsListing(d.books, work, listed) && UsableOf(d.books, work) != {}
    && !Promote(d, work, listed, child, s).1.ChildExists?
  }

  /** A promotion can overlook a usable child exactly if there is one, and ten others that are not usable. */
  lemma PromotionOverlooksExactly(d: Desk, work: int, child: int, s: Submission)
    requires child !in d.books.items && s.job !in d.books.jobs
    requires forall j :: j in d.books.jobs ==> d.books.jobs[j].work in d.books.items
    requires work in d.books.items && d.books.items[work].kind == ExternalWork
    requires d.books.items[work].status !in {WorkStatus.Rejected, Cancelled, Completed, WorkStatus.Archived}
    ensures (exists listed :: Overlooks(d, work, listed, child, s))
       <==> UsableOf(d.books, work) != {} && |ChildrenOf(d.books, work) - UsableOf(d.books, work)| >= 10
  {
    var children, usable := ChildrenOf(d.books, work), UsableOf(d.books, work);
    if usable != {} && |children - usable| >= 10 {
      var listed := CanBeListed(children - usable, 10);
      CountsAtMost(children - usable, children);
      MakesListing(d.books, work, listed);
      NoneIsUsable(d.books, work, listed);
      PromotionInAnyState(d, work, listed, child, s);
      assert Overlooks(d, work, listed, child, s);
    }
    forall listed | Overlooks(d, work, listed, child, s)
      ensures |children - usable| >= 10
    {
      OverlookedMeansTen(d, work, listed, child, s);
    }
  }

  lemma NoneIsUsable(b: Books, work: int, listed: seq<int>)
    requires Members(listed) <= ChildrenOf(b, work) - UsableOf(b, work)
    ensures forall i :: 0 <= i < |listed| ==> listed[i] in b.items && !IsUsable(b.items[listed[i]].status)
  {
    forall i | 0 <= i < |listed| ensures listed[i] in b.items && !IsUsable(b.items[listed[i]].status) {
      assert listed[i] in Members(listed);
    }
  }

  lemma OverlookedMeansTen(d: Desk, work: int, listed: seq<int>, child: int, s: Submission)
    requires child !in d.books.items && s.job !in d.books.jobs
    requires forall j :: j in d.books.jobs ==> d.books.jobs[j].work in d.books.items
    requires work in d.books.items && d.books.items[work].kind == ExternalWork
    requires d.books.items[work].status !in {WorkStatus.Rejected, Cancelled, Completed, WorkStatus.Archived}
    requires Overlooks(d, work, listed, child, s)
    ensures |ChildrenOf(d.books, work) - UsableOf(d.books, work)| >= 10
  {
    var children, usable := ChildrenOf(d.books, work), UsableOf(d.books, work);
    PromotionInAnyState(d, work, listed, child, s);
    ListingLength(d.books, work, listed);
    assert Distinct(listed);
    DistinctCounts(listed);
    forall c | c in Members(listed) ensures c !in usable {
      var i :| 0 <= i < |listed| && listed[i] == c;
      assert !IsUsable(d.books.items[listed[i]].status);
    }
    if |listed| < 10 {
      ShortListsAll(d.books, work, listed);
      assert false;
    }
    CountsAtMost(Members(listed), children - usable);
  }
}
