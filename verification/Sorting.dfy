/** A stable sort by keys, as the source's library sort is used. */
module Sorting {
  import opened Text

  /** Keys compare by tier, then by rank, then by text. */
  datatype SortKey = SortKey(tier: int, rank: int, text: string)

  predicate Before(a: SortKey, b: SortKey) {
    || a.tier < b.tier
    || (a.tier == b.tier && a.rank < b.rank)
    || (a.tier == b.tier && a.rank == b.rank && Less(a.text, b.text))
  }

  lemma NotBeforeTransitive(a: SortKey, b: SortKey, c: SortKey)
    requires !Before(b, a) && !Before(c, b)
    ensures !Before(c, a)
  {
    if Before(c, a) {
      LessTotal(b.text, c.text);
      LessTotal(a.text, b.text);
      if Less(c.text, a.text) && Less(a.text, b.text) { LessTransitive(c.text, a.text, b.text); }
      if Less(b.text, c.text) && Less(c.text, a.text) { LessTransitive(b.text, c.text, a.text); }
    }
  }

  lemma BeforeAsymmetric(a: SortKey, b: SortKey)
    requires Before(a, b)
    ensures !Before(b, a)
  {
    if Less(a.text, b.text) && Less(b.text, a.text) {
      LessTransitive(a.text, b.text, a.text);
      LessIrreflexive(a.text);
    }
  }

  function Insert<T>(key: T -> SortKey, sorted: seq<T>, x: T): seq<T> {
    if sorted == [] || !Before(key(x), key(sorted[|sorted| - 1])) then sorted + [x]
    else Insert(key, sorted[..|sorted| - 1], x) + [sorted[|sorted| - 1]]
  }

  function StableSort<T>(key: T -> SortKey, items: seq<T>): seq<T> {
    if items == [] then [] else Insert(key, StableSort(key, items[..|items| - 1]), items[|items| - 1])
  }

  ghost predicate InOrder<T>(key: T -> SortKey, items: seq<T>) {
    forall i, j :: 0 <= i < j < |items| ==> !Before(key(items[j]), key(items[i]))
  }

  lemma {:induction false} InsertPermutes<T>(key: T -> SortKey, sorted: seq<T>, x: T)
    ensures multiset(Insert(key, sorted, x)) == multiset(sorted) + multiset{x}
  {
    if sorted != [] && Before(key(x), key(sorted[|sorted| - 1])) {
      InsertPermutes(key, sorted[..|sorted| - 1], x);
      assert sorted == sorted[..|sorted| - 1] + [sorted[|sorted| - 1]];
    }
  }

  lemma InsertMembers<T>(key: T -> SortKey, sorted: seq<T>, x: T, y: T)
    requires y in Insert(key, sorted, x)
    ensures y == x || y in sorted
  {
    InsertPermutes(key, sorted, x);
    assert y in multiset(Insert(key, sorted, x));
  }

  lemma {:induction false} InsertKeepsOrder<T>(key: T -> SortKey, sorted: seq<T>, x: T)
    requires InOrder(key, sorted)
    ensures InOrder(key, Insert(key, sorted, x))
  {
    if sorted == [] {
    } else if Before(key(x), key(sorted[|sorted| - 1])) {
      var init, last := sorted[..|sorted| - 1], sorted[|sorted| - 1];
      InsertKeepsOrder(key, init, x);
      var inserted := Insert(key, init, x);
      forall i | 0 <= i < |inserted|
        ensures !Before(key(last), key(inserted[i]))
      {
        InsertMembers(key, init, x, inserted[i]);
        if inserted[i] == x {
          BeforeAsymmetric(key(x), key(last));
        }
      }
    } else {
      forall i | 0 <= i < |sorted| - 1
        ensures !Before(key(x), key(sorted[i]))
      {
        NotBeforeTransitive(key(sorted[i]), key(sorted[|sorted| - 1]), key(x));
      }
    }
  }

  /** Sorting permutes the items and puts their keys in order. */
  lemma {:induction false} StableSortSorts<T>(key: T -> SortKey, items: seq<T>)
    ensures multiset(StableSort(key, items)) == multiset(items)
    ensures InOrder(key, StableSort(key, items))
  {
    if items != [] {
      hide InOrder, Before;
      var init, last := items[..|items| - 1], items[|items| - 1];
      StableSortSorts(key, init);
      InsertPermutes(key, StableSort(key, init), last);
      InsertKeepsOrder(key, StableSort(key, init), last);
      assert items == init + [last];
    }
  }

  lemma {:induction false} InsertFilters<T>(key: T -> SortKey, sorted: seq<T>, x: T, k: SortKey)
    requires InOrder(key, sorted)
    ensures WithKey(key, Insert(key, sorted, x), k) == WithKey(key, sorted, k) + if key(x) == k then [x] else []
  {
    if sorted != [] && Before(key(x), key(sorted[|sorted| - 1])) {
      var init, last := sorted[..|sorted| - 1], sorted[|sorted| - 1];
      InsertFilters(key, init, x, k);
      var inserted := Insert(key, init, x);
      assert (inserted + [last])[..|inserted|] == inserted;
      if key(x) == k == key(last) {
        BeforeAsymmetric(key(x), key(last));
      }
    } else {
      assert (sorted + [x])[..|sorted|] == sorted;
    }
  }

  ghost function WithKey<T>(key: T -> SortKey, items: seq<T>, k: SortKey): seq<T> {
    if items == [] then []
    else WithKey(key, items[..|items| - 1], k) + if key(items[|items| - 1]) == k then [items[|items| - 1]] else []
  }

  /** Items with equal keys keep their input order. */
  lemma {:induction false} StableSortIsStable<T>(key: T -> SortKey, items: seq<T>, k: SortKey)
    ensures WithKey(key, StableSort(key, items), k) == WithKey(key, items, k)
  {
    if items != [] {
      var init, last := items[..|items| - 1], items[|items| - 1];
      StableSortIsStable(key, init, k);
      StableSortSorts(key, init);
      InsertFilters(key, StableSort(key, init), last, k);
    }
  }

  /** Positions grow along the items. */
  ghost predicate Ascends<T>(position: T -> int, items: seq<T>) {
    forall i, j :: 0 <= i < j < |items| ==> position(items[i]) < position(items[j])
  }

  /** In order by key, and items with equal keys by position. */
  ghost predicate StablyInOrder<T>(key: T -> SortKey, position: T -> int, items: seq<T>) {
    && InOrder(key, items)
    && forall i, j :: 0 <= i < j < |items| && key(items[i]) == key(items[j]) ==> position(items[i]) < position(items[j])
  }

  lemma {:induction false} WithKeyAscends<T>(key: T -> SortKey, items: seq<T>, k: SortKey, position: T -> int)
    requires Ascends(position, items)
    ensures Ascends(position, WithKey(key, items, k))
    ensures forall x :: x in WithKey(key, items, k) ==> x in items
  {
    if items != [] {
      var init, last := items[..|items| - 1], items[|items| - 1];
      WithKeyAscends(key, init, k, position);
      forall x | x in WithKey(key, init, k)
        ensures position(x) < position(last)
      {
        var i :| 0 <= i < |init| && init[i] == x;
        assert items[i] == x;
      }
    }
  }

  /** An item stands behind the earlier items with its key. */
  lemma {:induction false} WithKeyAt<T>(key: T -> SortKey, items: seq<T>, i: nat)
    requires i < |items|
    ensures var kept, before := WithKey(key, items, key(items[i])), WithKey(key, items[..i], key(items[i]));
            |before| < |kept| && kept[|before|] == items[i]
  {
    var last := |items| - 1;
    if i < last {
      WithKeyAt(key, items[..last], i);
      assert items[..last][..i] == items[..i];
    }
  }

  /** Sorting keeps the order of items with equal keys. */
  lemma StableSortKeepsTies<T>(key: T -> SortKey, position: T -> int, items: seq<T>)
    requires Ascends(position, items)
    ensures StablyInOrder(key, position, StableSort(key, items))
  {
    var sorted := StableSort(key, items);
    StableSortSorts(key, items);
    forall i, j | 0 <= i < j < |sorted| && key(sorted[i]) == key(sorted[j])
      ensures position(sorted[i]) < position(sorted[j])
    {
      var k := key(sorted[i]);
      StableSortIsStable(key, items, k);
      WithKeyAscends(key, items, k, position);
      WithKeyAt(key, sorted, i);
      WithKeyAt(key, sorted, j);
      WithKeyAt(key, sorted[..j], i);
      assert sorted[..j][..i] == sorted[..i];
    }
  }
}
