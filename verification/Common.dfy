/** Vocabulary shared by the modules of the model. */
module Common {

  datatype Option<+T> = None | Some(value: T)

  /** The source's (value, error) returns. */
  datatype Result<+T, +E> = Ok(value: T) | Err(error: E)

  /** The lists of a task; one stored before tasks had several belongs to its primary list. */
  function MembershipsOf(listID: string, listIDs: seq<string>): seq<string> {
    if listIDs == [] then (if listID == "" then [] else [listID]) else listIDs
  }

  predicate InListsOf(listID: string, listIDs: seq<string>, id: string) { id == listID || id in listIDs }

  ghost predicate Distinct<T>(s: seq<T>) {
    forall i, j :: 0 <= i < j < |s| ==> s[i] != s[j]
  }

  ghost predicate StrictlyIncreasing(s: seq<int>) {
    forall i, j :: 0 <= i < j < |s| ==> s[i] < s[j]
  }

  ghost function Elements<T>(s: seq<T>): set<T> {
    set x | x in s
  }

  lemma ElementsSnoc<T>(s: seq<T>, x: T)
    ensures Elements(s + [x]) == Elements(s) + {x}
    ensures Distinct(s + [x]) <==> Distinct(s) && x !in Elements(s)
  {
    if Distinct(s + [x]) {
      forall i, j | 0 <= i < j < |s|
        ensures s[i] != s[j]
      {
        assert (s + [x])[i] != (s + [x])[j];
      }
      forall i | 0 <= i < |s|
        ensures s[i] != x
      {
        assert (s + [x])[i] != (s + [x])[|s|];
      }
    }
  }

  lemma {:induction false} DistinctCardinality<T>(s: seq<T>)
    requires Distinct(s)
    ensures |Elements(s)| == |s|
  {
    if s == [] {
    } else {
      DistinctCardinality(s[1..]);
      assert Elements(s) == {s[0]} + Elements(s[1..]);
    }
  }

  lemma SubsetCardinality<T>(a: set<T>, b: set<T>)
    requires a <= b
    ensures |a| <= |b|
  {
    assert b == a + (b - a);
  }

  /** A distinct sequence drawn from a finite set is no longer than the set. */
  lemma Pigeonhole<T>(s: seq<T>, universe: set<T>)
    requires Distinct(s)
    requires forall x :: x in s ==> x in universe
    ensures |s| <= |universe|
  {
    DistinctCardinality(s);
    SubsetCardinality(Elements(s), universe);
  }

  lemma {:induction false} DistinctMultiplicity<T>(s: seq<T>, x: T)
    requires Distinct(s)
    ensures multiset(s)[x] <= 1
  {
    if s == [] {
    } else {
      DistinctMultiplicity(s[1..], x);
      assert s == [s[0]] + s[1..];
    }
  }

  /** A permutation of a distinct sequence is distinct and has the same elements. */
  lemma PermutedDistinct<T>(a: seq<T>, b: seq<T>)
    requires Distinct(a) && multiset(a) == multiset(b)
    ensures Distinct(b) && Elements(a) == Elements(b)
  {
    forall i, j | 0 <= i < j < |b|
      ensures b[i] != b[j]
    {
      DistinctMultiplicity(a, b[i]);
      assert b == b[..i] + [b[i]] + b[i + 1..j] + [b[j]] + b[j + 1..];
    }
    forall x
      ensures x in a <==> x in b
    {
      assert x in a <==> x in multiset(a);
      assert x in b <==> x in multiset(b);
    }
  }

  /** The positions of a sequence of length n. */
  ghost function Positions(n: nat): (positions: set<nat>)
    ensures forall i: int :: i in positions <==> 0 <= i < n
    ensures |positions| == n
  {
    if n == 0 then {} else Positions(n - 1) + {n - 1}
  }

  ghost predicate Within(s: seq<nat>, n: nat) {
    forall i :: 0 <= i < |s| ==> s[i] < n
  }

  ghost function Pick<T>(items: seq<T>, order: seq<nat>): (picked: seq<T>)
    requires Within(order, |items|)
    ensures |picked| == |order|
  {
    seq(|order|, i requires 0 <= i < |order| => items[order[i]])
  }

  lemma DropElement(order: seq<nat>, p: nat)
    requires p < |order| && Distinct(order)
    ensures var rest := order[..p] + order[p + 1..];
            Distinct(rest) && Elements(rest) == Elements(order) - {order[p]}
  {
    var rest := order[..p] + order[p + 1..];
    forall k | k in order && k != order[p]
      ensures k in rest
    {
      var i :| 0 <= i < |order| && order[i] == k;
      assert rest[if i < p then i else i - 1] == k;
    }
  }

  lemma ElementsWithin(order: seq<nat>, n: nat)
    requires Elements(order) <= Positions(n)
    ensures Within(order, n)
  {
    forall i | 0 <= i < |order|
      ensures order[i] < n
    {
      assert order[i] in Elements(order);
    }
  }

  lemma RemoveOne<T>(s: seq<T>, p: nat)
    requires p < |s|
    ensures multiset(s) == multiset(s[..p] + s[p + 1..]) + multiset{s[p]}
  {
    assert s == s[..p] + [s[p]] + s[p + 1..];
  }

  lemma PickRest<T>(items: seq<T>, order: seq<nat>, p: nat, n: nat)
    requires n <= |items| && Within(order, |items|) && p < |order|
    requires Within(order[..p] + order[p + 1..], n)
    ensures Pick(items[..n], order[..p] + order[p + 1..]) == Pick(items, order)[..p] + Pick(items, order)[p + 1..]
  {
    var rest := order[..p] + order[p + 1..];
    forall i | 0 <= i < |rest|
      ensures Pick(items[..n], rest)[i] == (Pick(items, order)[..p] + Pick(items, order)[p + 1..])[i]
    {
      assert rest[i] == order[if i < p then i else i + 1];
    }
  }

  /** Picking every position once permutes the items. */
  lemma {:induction false} PickPermutes<T>(items: seq<T>, order: seq<nat>)
    requires Within(order, |items|) && Distinct(order) && Elements(order) == Positions(|items|)
    ensures multiset(Pick(items, order)) == multiset(items)
    decreases |items|
  {
    if items == [] {
    } else {
      var n := |items| - 1;
      assert n in Elements(order);
      var p :| 0 <= p < |order| && order[p] == n;
      DropElement(order, p);
      var rest := order[..p] + order[p + 1..];
      ElementsWithin(rest, n);
      PickPermutes(items[..n], rest);
      PickRest(items, order, p, n);
      RemoveOne(Pick(items, order), p);
      RemoveOne(items, n);
      assert items[..n] + items[n + 1..] == items[..n];
    }
  }

  function Map<T, U>(f: T -> U, s: seq<T>): (mapped: seq<U>)
    ensures |mapped| == |s|
  {
    seq(|s|, i requires 0 <= i < |s| => f(s[i]))
  }

  lemma MapRemove<T, U>(f: T -> U, s: seq<T>, p: nat)
    requires p < |s|
    ensures multiset(Map(f, s)) == multiset(Map(f, s[..p] + s[p + 1..])) + multiset{f(s[p])}
  {
    RemoveOne(Map(f, s), p);
    assert Map(f, s[..p] + s[p + 1..]) == Map(f, s)[..p] + Map(f, s)[p + 1..];
  }

  /** Mapping respects permutation. */
  lemma {:induction false} MapPermutes<T, U>(f: T -> U, a: seq<T>, b: seq<T>)
    requires multiset(a) == multiset(b)
    ensures multiset(Map(f, a)) == multiset(Map(f, b))
    decreases |a|
  {
    if a == [] {
      assert |multiset(b)| == 0;
    } else {
      var last := |a| - 1;
      assert a[last] in multiset(b);
      var p :| 0 <= p < |b| && b[p] == a[last];
      RemoveOne(a, last);
      RemoveOne(b, p);
      assert multiset(a[..last] + a[last + 1..]) == multiset(a) - multiset{a[last]};
      assert multiset(b[..p] + b[p + 1..]) == multiset(b) - multiset{b[p]};
      MapPermutes(f, a[..last] + a[last + 1..], b[..p] + b[p + 1..]);
      MapRemove(f, a, last);
      MapRemove(f, b, p);
    }
  }
}
