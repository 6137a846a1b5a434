/**
  Parent links form a partial function from entity to entity. A set of entities
  whose parents stay inside the set contains a cycle; without cycles the
  entities can be ranked below their parents.
 */
module ParentGraph {
  import opened Common

  ghost predicate Cycle<T>(links: map<T, T>, path: seq<T>) {
    && |path| > 0
    && (forall i :: 0 <= i < |path| ==> path[i] in links)
    && (forall i :: 0 <= i < |path| - 1 ==> links[path[i]] == path[i + 1])
    && links[path[|path| - 1]] == path[0]
  }

  ghost predicate Acyclic<T(!new)>(links: map<T, T>) {
    forall path: seq<T> :: !Cycle(links, path)
  }

  /** Every parent that has a parent itself is ranked strictly lower. */
  ghost predicate Ranks<T>(rank: map<T, nat>, links: map<T, T>) {
    && links.Keys <= rank.Keys
    && forall x :: x in links && links[x] in links ==> rank[links[x]] < rank[x]
  }

  /** A nonempty set that every parent link maps into itself. */
  ghost predicate Trap<T>(links: map<T, T>, trap: set<T>) {
    trap != {} && trap <= links.Keys && forall x :: x in trap ==> links[x] in trap
  }

  lemma {:induction false} WalkClosesCycle<T>(links: map<T, T>, trap: set<T>, walk: seq<T>) returns (path: seq<T>)
    requires Trap(links, trap)
    requires |walk| > 0 && Distinct(walk)
    requires forall x :: x in walk ==> x in trap
    requires forall i :: 0 <= i < |walk| - 1 ==> links[walk[i]] == walk[i + 1]
    ensures Cycle(links, path) && forall x :: x in path ==> x in trap
    decreases |trap| - |walk|
  {
    Pigeonhole(walk, trap);
    var next := links[walk[|walk| - 1]];
    if next in walk {
      var i :| 0 <= i < |walk| && walk[i] == next;
      path := walk[i..];
      assert forall x :: x in path ==> x in walk;
    } else {
      var longer := walk + [next];
      Pigeonhole(longer, trap);
      path := WalkClosesCycle(links, trap, longer);
    }
  }

  lemma TrapHasCycle<T>(links: map<T, T>, trap: set<T>) returns (path: seq<T>)
    requires Trap(links, trap)
    ensures Cycle(links, path) && forall x :: x in path ==> x in trap
  {
    var start :| start in trap;
    path := WalkClosesCycle(links, trap, [start]);
  }

  lemma CycleIsTrap<T>(links: map<T, T>, path: seq<T>)
    requires Cycle(links, path)
    ensures Trap(links, Elements(path))
  {
    assert path[0] in Elements(path);
    forall x | x in Elements(path)
      ensures links[x] in Elements(path)
    {
      var i :| 0 <= i < |path| && path[i] == x;
      if i < |path| - 1 {
        assert links[path[i]] == path[i + 1];
      }
    }
  }

  lemma AcyclicWithout<T(!new)>(links: map<T, T>, gone: T)
    requires Acyclic(links)
    ensures Acyclic(links - {gone})
  {
    forall path: seq<T>
      ensures !Cycle(links - {gone}, path)
    {
      assert !Cycle(links, path);
    }
  }

  /** Links without a cycle can be ranked. */
  lemma {:induction false} RankExists<T(!new)>(links: map<T, T>) returns (rank: map<T, nat>)
    requires Acyclic(links)
    ensures Ranks(rank, links)
    decreases |links|
  {
    if links == map[] {
      rank := map[];
    } else {
      if forall x :: x in links ==> links[x] in links {
        var some :| some in links;
        assert some in links.Keys;
        var path := TrapHasCycle(links, links.Keys);
        assert false;
      }
      var top :| top in links && links[top] !in links;
      var rest := links - {top};
      AcyclicWithout(links, top);
      var below := RankExists(rest);
      rank := (map x | x in below.Keys :: below[x] + 1)[top := 0];
      forall x | x in links && links[x] in links
        ensures rank[links[x]] < rank[x]
      {
        assert x != top && x in rest;
        if links[x] != top {
          assert rest[x] in rest;
        }
      }
    }
  }

  // ----- ancestry -----

  /** The n-th ancestor. */
  ghost function Up<T>(links: map<T, T>, x: T, n: nat): Option<T> {
    if n == 0 then Some(x)
    else
      match Up(links, x, n - 1)
      case None => None
      case Some(below) => if below in links then Some(links[below]) else None
  }

  /** x is y or lies below it, however deep. */
  ghost predicate Descends<T>(links: map<T, T>, x: T, y: T) {
    exists n: nat :: Up(links, x, n) == Some(y)
  }

  ghost predicate Siblings<T>(links: map<T, T>, x: T, y: T) {
    (x in links <==> y in links) && (x in links ==> links[x] == links[y])
  }

  lemma {:induction false} UpSum<T>(links: map<T, T>, x: T, n: nat, y: T, m: nat)
    requires Up(links, x, n) == Some(y)
    ensures Up(links, x, n + m) == Up(links, y, m)
  {
    if m > 0 {
      UpSum(links, x, n, y, m - 1);
    }
  }

  lemma {:induction false} UpStops<T>(links: map<T, T>, x: T, n: nat, m: nat)
    requires n <= m && Up(links, x, m).Some?
    ensures Up(links, x, n).Some?
    decreases m - n
  {
    if n < m {
      UpStops(links, x, n + 1, m);
    }
  }

  lemma DescendsSelf<T>(links: map<T, T>, x: T)
    ensures Descends(links, x, x)
  {
    assert Up(links, x, 0) == Some(x);
  }

  lemma DescendsParent<T>(links: map<T, T>, x: T)
    requires x in links
    ensures Descends(links, x, links[x])
  {
    assert Up(links, x, 0) == Some(x);
    assert Up(links, x, 1) == Some(links[x]);
  }

  lemma DescendsTransitive<T>(links: map<T, T>, x: T, y: T, z: T)
    requires Descends(links, x, y) && Descends(links, y, z)
    ensures Descends(links, x, z)
  {
    var n: nat :| Up(links, x, n) == Some(y);
    var m: nat :| Up(links, y, m) == Some(z);
    UpSum(links, x, n, y, m);
  }

  /** A proper descendant hangs below a direct child. */
  lemma DescendsThroughChild<T>(links: map<T, T>, x: T, y: T) returns (child: T)
    requires Descends(links, x, y) && x != y
    ensures child in links && links[child] == y && Descends(links, x, child)
  {
    var n: nat :| Up(links, x, n) == Some(y);
    assert n != 0;
    child := Up(links, x, n - 1).value;
  }

  /** A proper descendant's parent descends too. */
  lemma DescendsFromParent<T>(links: map<T, T>, x: T, y: T)
    requires Descends(links, x, y) && x != y
    ensures x in links && Descends(links, links[x], y)
  {
    var n: nat :| Up(links, x, n) == Some(y);
    assert n != 0;
    UpStops(links, x, 1, n);
    assert Up(links, x, 0) == Some(x);
    UpSum(links, x, 1, links[x], n - 1);
  }

  lemma Between<T>(links: map<T, T>, x: T, n: nat, y: T, m: nat, z: T)
    requires n <= m && Up(links, x, n) == Some(y) && Up(links, x, m) == Some(z)
    ensures Descends(links, y, z)
  {
    UpSum(links, x, n, y, m - n);
    assert Up(links, y, m - n) == Some(z);
  }

  /** Two ancestors of one entity lie on one chain. */
  lemma Comparable<T>(links: map<T, T>, x: T, y: T, z: T)
    requires Descends(links, x, y) && Descends(links, x, z)
    ensures Descends(links, y, z) || Descends(links, z, y)
  {
    var n: nat :| Up(links, x, n) == Some(y);
    var m: nat :| Up(links, x, m) == Some(z);
    if n <= m {
      Between(links, x, n, y, m, z);
    } else {
      Between(links, x, m, z, n, y);
    }
  }

  lemma {:induction false} UpRanksLower<T>(rank: map<T, nat>, links: map<T, T>, x: T, n: nat, y: T)
    requires Ranks(rank, links) && n > 0 && Up(links, x, n) == Some(y) && y in links
    ensures x in links && rank[y] < rank[x]
  {
    var below := Up(links, x, n - 1).value;
    if n > 1 {
      UpRanksLower(rank, links, x, n - 1, below);
    } else {
      assert Up(links, x, 0) == Some(x);
    }
  }

  /** Nothing lies strictly below itself. */
  lemma NoLoop<T>(rank: map<T, nat>, links: map<T, T>, x: T)
    requires Ranks(rank, links) && x in links
    ensures !Descends(links, links[x], x)
  {
    if Descends(links, links[x], x) {
      var n: nat :| Up(links, links[x], n) == Some(x);
      assert Up(links, x, 0) == Some(x);
      assert Up(links, x, 1) == Some(links[x]);
      UpSum(links, x, 1, links[x], n);
      UpRanksLower(rank, links, x, 1 + n, x);
    }
  }

  /** The trees of two different siblings share nothing. */
  lemma SiblingsDisjoint<T>(rank: map<T, nat>, links: map<T, T>, x: T, y: T, z: T)
    requires Ranks(rank, links) && Siblings(links, y, z) && Descends(links, x, y) && Descends(links, x, z)
    ensures y == z
  {
    if y != z {
      Comparable(links, x, y, z);
      var low, high := if Descends(links, y, z) then y else z, if Descends(links, y, z) then z else y;
      DescendsFromParent(links, low, high);
      NoLoop(rank, links, high);
    }
  }
}
