/** Groups of items under distinct keys: gathering, ordering, filtering and flattening them. */
module KeyedGroups {
  import opened Common
  import opened Sorting

  datatype Group<T> = Group(key: string, heading: string, rows: seq<T>, collapsed: bool)

  /** The rows that carry one key, in input order. */
  ghost function Select<T>(rows: seq<T>, keys: seq<string>, key: string): (selected: seq<T>)
    requires |rows| == |keys|
  {
    if rows == [] then []
    else
      var last := |rows| - 1;
      Select(rows[..last], keys[..last], key) + if keys[last] == key then [rows[last]] else []
  }

  ghost predicate DistinctKeys<T>(groups: seq<Group<T>>) {
    forall i, j :: 0 <= i < j < |groups| ==> groups[i].key != groups[j].key
  }

  ghost function GroupKeys<T>(groups: seq<Group<T>>): set<string> {
    set g | 0 <= g < |groups| :: groups[g].key
  }

  ghost predicate Gathers<T>(group: Group<T>, rows: seq<T>, keys: seq<string>)
    requires |rows| == |keys|
  {
    group.rows == Select(rows, keys, group.key) && group.rows != [] && !group.collapsed
  }

  /** Every row sits, in input order, in the one group of its key. */
  ghost predicate Partitions<T>(groups: seq<Group<T>>, rows: seq<T>, keys: seq<string>)
    requires |rows| == |keys|
  {
    && DistinctKeys(groups)
    && (forall g :: 0 <= g < |groups| ==> Gathers(groups[g], rows, keys))
    && GroupKeys(groups) == Elements(keys)
  }

  /** Where a key appears first. */
  ghost function First(keys: seq<string>, key: string): (position: nat)
    ensures position <= |keys|
    ensures key in keys ==> position < |keys| && keys[position] == key
    ensures forall k :: 0 <= k < position ==> keys[k] != key
  {
    if keys == [] then 0
    else
      var init := keys[..|keys| - 1];
      if key in init then First(init, key) else if keys[|init|] == key then |init| else |keys|
  }

  lemma FirstSnoc(keys: seq<string>, its: string, key: string)
    requires key in keys
    ensures First(keys + [its], key) == First(keys, key)
  {
    assert (keys + [its])[..|keys|] == keys;
  }

  ghost function Appearance<T>(keys: seq<string>): Group<T> -> int {
    (g: Group<T>) => First(keys, g.key)
  }

  /** Every group is headed as the first row of its key asks for. */
  ghost predicate Headed<T>(groups: seq<Group<T>>, keys: seq<string>, headings: seq<string>)
    requires |keys| == |headings|
  {
    forall g :: 0 <= g < |groups| ==>
      groups[g].key in keys && groups[g].heading == headings[First(keys, groups[g].key)]
  }

  ghost predicate SameHeads<T>(before: seq<Group<T>>, after: seq<Group<T>>) {
    && |after| == |before|
    && forall g :: 0 <= g < |before| ==> after[g].key == before[g].key && after[g].heading == before[g].heading
  }

  lemma SelectSnoc<T>(rows: seq<T>, keys: seq<string>, row: T, its: string, key: string)
    requires |rows| == |keys|
    ensures Select(rows + [row], keys + [its], key) == Select(rows, keys, key) + if its == key then [row] else []
  {
    assert (rows + [row])[..|rows|] == rows && (keys + [its])[..|keys|] == keys;
  }

  lemma {:induction false} SelectNothing<T>(rows: seq<T>, keys: seq<string>, key: string)
    requires |rows| == |keys| && key !in keys
    ensures Select(rows, keys, key) == []
  {
    if rows != [] {
      SelectNothing(rows[..|rows| - 1], keys[..|rows| - 1], key);
    }
  }

  lemma JoinGroup<T>(groups: seq<Group<T>>, rows: seq<T>, keys: seq<string>, row: T, g: nat)
    requires |rows| == |keys| && Partitions(groups, rows, keys) && g < |groups|
    ensures var after := groups[g := groups[g].(rows := groups[g].rows + [row])];
            Partitions(after, rows + [row], keys + [groups[g].key]) && GroupKeys(after) == GroupKeys(groups)
  {
    var after := groups[g := groups[g].(rows := groups[g].rows + [row])];
    forall h | 0 <= h < |after|
      ensures Gathers(after[h], rows + [row], keys + [groups[g].key])
    {
      assert Gathers(groups[h], rows, keys);
      SelectSnoc(rows, keys, row, groups[g].key, after[h].key);
    }
    assert groups[g].key in GroupKeys(groups);
    assert forall h :: 0 <= h < |groups| ==> after[h].key == groups[h].key;
    assert GroupKeys(after) == GroupKeys(groups);
  }

  lemma OpenGroup<T>(groups: seq<Group<T>>, rows: seq<T>, keys: seq<string>, row: T, key: string, heading: string)
    requires |rows| == |keys| && Partitions(groups, rows, keys) && key !in GroupKeys(groups)
    ensures var after := groups + [Group(key, heading, [row], false)];
            Partitions(after, rows + [row], keys + [key]) && GroupKeys(after) == GroupKeys(groups) + {key}
  {
    var after := groups + [Group(key, heading, [row], false)];
    SelectNothing(rows, keys, key);
    assert forall h :: 0 <= h < |groups| ==> after[h] == groups[h] && groups[h].key in GroupKeys(groups);
    forall h | 0 <= h < |after|
      ensures Gathers(after[h], rows + [row], keys + [key])
    {
      SelectSnoc(rows, keys, row, key, after[h].key);
      if h < |groups| {
        assert Gathers(groups[h], rows, keys);
      }
    }
    assert after[|groups|].key == key;
    assert GroupKeys(after) == GroupKeys(groups) + {key};
  }

  /** The groups opened so far, and where each key's group is. */
  ghost predicate Grouping<T>(groups: seq<Group<T>>, byKey: map<string, nat>, rows: seq<T>, keys: seq<string>,
                              headings: seq<string>)
    requires |rows| == |keys| == |headings|
  {
    && Partitions(groups, rows, keys)
    && Headed(groups, keys, headings)
    && Ascends(Appearance(keys), groups)
    && byKey.Keys == GroupKeys(groups)
    && forall key :: key in byKey ==> byKey[key] < |groups| && groups[byKey[key]].key == key
  }

  lemma StaysHeaded<T>(groups: seq<Group<T>>, after: seq<Group<T>>, keys: seq<string>, headings: seq<string>,
                       key: string, heading: string)
    requires |keys| == |headings| && Headed(groups, keys, headings) && Ascends(Appearance(keys), groups)
    requires SameHeads(groups, after)
    ensures Headed(after, keys + [key], headings + [heading]) && Ascends(Appearance(keys + [key]), after)
  {
    forall g | 0 <= g < |groups|
      ensures First(keys + [key], groups[g].key) == First(keys, groups[g].key)
    {
      FirstSnoc(keys, key, groups[g].key);
    }
    forall i, j | 0 <= i < j < |after|
      ensures First(keys + [key], after[i].key) < First(keys + [key], after[j].key)
    {
      assert Appearance(keys)(groups[i]) < Appearance(keys)(groups[j]);
    }
  }

  lemma HeadsNew<T>(groups: seq<Group<T>>, row: T, keys: seq<string>, headings: seq<string>, key: string,
                    heading: string)
    requires |keys| == |headings| && Headed(groups, keys, headings) && Ascends(Appearance(keys), groups) && key !in keys
    ensures var after := groups + [Group(key, heading, [row], false)];
            Headed(after, keys + [key], headings + [heading]) && Ascends(Appearance(keys + [key]), after)
  {
    StaysHeaded(groups, groups, keys, headings, key, heading);
    assert (keys + [key])[..|keys|] == keys;
    assert First(keys + [key], key) == |keys|;
    forall g | 0 <= g < |groups|
      ensures First(keys + [key], groups[g].key) < |keys|
    {
      FirstSnoc(keys, key, groups[g].key);
    }
  }

  lemma Joins<T>(groups: seq<Group<T>>, byKey: map<string, nat>, rows: seq<T>, keys: seq<string>,
                 headings: seq<string>, row: T, key: string, heading: string)
    requires |rows| == |keys| == |headings| && Grouping(groups, byKey, rows, keys, headings) && key in byKey
    ensures var g := byKey[key];
            g < |groups| && groups[g].key == key
            && Grouping(groups[g := groups[g].(rows := groups[g].rows + [row])], byKey,
                        rows + [row], keys + [key], headings + [heading])
  {
    hide Headed, Ascends, Gathers;
    var g := byKey[key];
    JoinGroup(groups, rows, keys, row, g);
    StaysHeaded(groups, groups[g := groups[g].(rows := groups[g].rows + [row])], keys, headings, key, heading);
  }

  lemma Opens<T>(groups: seq<Group<T>>, byKey: map<string, nat>, rows: seq<T>, keys: seq<string>,
                 headings: seq<string>, row: T, key: string, heading: string)
    requires |rows| == |keys| == |headings| && Grouping(groups, byKey, rows, keys, headings) && key !in byKey
    ensures Grouping(groups + [Group(key, heading, [row], false)], byKey[key := |groups|],
                     rows + [row], keys + [key], headings + [heading])
  {
    assert key !in Elements(keys);
    hide Headed, Ascends, Gathers;
    OpenGroup(groups, rows, keys, row, key, heading);
    HeadsNew(groups, row, keys, headings, key, heading);
  }

  /** Adds one row to the group of its key, opening the group if it is the first. */
  method Place<T>(groups: seq<Group<T>>, byKey: map<string, nat>, ghost rows: seq<T>, ghost keys: seq<string>,
                  ghost headings: seq<string>, row: T, key: string, heading: string)
      returns (after: seq<Group<T>>, afterByKey: map<string, nat>)
    requires |rows| == |keys| == |headings| && Grouping(groups, byKey, rows, keys, headings)
    ensures Grouping(after, afterByKey, rows + [row], keys + [key], headings + [heading])
  {
    hide Grouping;
    if key in byKey {
      Joins(groups, byKey, rows, keys, headings, row, key, heading);
      var g := byKey[key];
      after, afterByKey := groups[g := groups[g].(rows := groups[g].rows + [row])], byKey;
    } else {
      Opens(groups, byKey, rows, keys, headings, row, key, heading);
      after, afterByKey := groups + [Group(key, heading, [row], false)], byKey[key := |groups|];
    }
  }

  ghost function Concat<T>(groups: seq<Group<T>>): seq<T> {
    if groups == [] then [] else Concat(groups[..|groups| - 1]) + groups[|groups| - 1].rows
  }

  /** The rows whose keys lie in a set. */
  ghost function SelectAny<T>(rows: seq<T>, keys: seq<string>, some: set<string>): multiset<T>
    requires |rows| == |keys|
  {
    if rows == [] then multiset{}
    else
      var last := |rows| - 1;
      SelectAny(rows[..last], keys[..last], some) + if keys[last] in some then multiset{rows[last]} else multiset{}
  }

  lemma {:induction false} SelectOneMore<T>(rows: seq<T>, keys: seq<string>, some: set<string>, key: string)
    requires |rows| == |keys| && key !in some
    ensures SelectAny(rows, keys, some + {key}) == SelectAny(rows, keys, some) + multiset(Select(rows, keys, key))
  {
    if rows != [] {
      SelectOneMore(rows[..|rows| - 1], keys[..|rows| - 1], some, key);
    }
  }

  lemma {:induction false} SelectEverything<T>(rows: seq<T>, keys: seq<string>, some: set<string>)
    requires |rows| == |keys| && forall k :: k in keys ==> k in some
    ensures SelectAny(rows, keys, some) == multiset(rows)
  {
    if rows != [] {
      var last := |rows| - 1;
      SelectEverything(rows[..last], keys[..last], some);
      assert keys[last] in keys;
      assert rows == rows[..last] + [rows[last]];
    }
  }

  lemma {:induction false} SelectNone<T>(rows: seq<T>, keys: seq<string>)
    requires |rows| == |keys|
    ensures SelectAny(rows, keys, {}) == multiset{}
  {
    if rows != [] {
      SelectNone(rows[..|rows| - 1], keys[..|rows| - 1]);
    }
  }

  lemma {:induction false} ConcatSelects<T>(groups: seq<Group<T>>, rows: seq<T>, keys: seq<string>)
    requires |rows| == |keys| && DistinctKeys(groups)
    requires forall g :: 0 <= g < |groups| ==> Gathers(groups[g], rows, keys)
    ensures multiset(Concat(groups)) == SelectAny(rows, keys, GroupKeys(groups))
  {
    if groups == [] {
      assert GroupKeys(groups) == {};
      SelectNone(rows, keys);
    } else {
      var last := |groups| - 1;
      var rest := groups[..last];
      ConcatSelects(rest, rows, keys);
      assert groups == rest + [groups[last]];
      assert GroupKeys(groups) == GroupKeys(rest) + {groups[last].key};
      assert Gathers(groups[last], rows, keys);
      SelectOneMore(rows, keys, GroupKeys(rest), groups[last].key);
    }
  }

  /** A partition into groups is a permutation of the rows. */
  lemma PartitionPermutes<T>(groups: seq<Group<T>>, rows: seq<T>, keys: seq<string>)
    requires |rows| == |keys| && Partitions(groups, rows, keys)
    ensures multiset(Concat(groups)) == multiset(rows)
  {
    ConcatSelects(groups, rows, keys);
    SelectEverything(rows, keys, GroupKeys(groups));
  }

  lemma ConcatSnoc<T>(groups: seq<Group<T>>, last: Group<T>)
    ensures Concat(groups + [last]) == Concat(groups) + last.rows
  {
    assert (groups + [last])[..|groups|] == groups;
  }

  lemma {:induction false} ConcatInsert<T>(key: Group<T> -> SortKey, sorted: seq<Group<T>>, group: Group<T>)
    ensures multiset(Concat(Insert(key, sorted, group))) == multiset(Concat(sorted)) + multiset(group.rows)
  {
    if sorted == [] || !Before(key(group), key(sorted[|sorted| - 1])) {
      ConcatSnoc(sorted, group);
    } else {
      var init, last := sorted[..|sorted| - 1], sorted[|sorted| - 1];
      ConcatInsert(key, init, group);
      ConcatSnoc(Insert(key, init, group), last);
    }
  }

  /** Ordering the groups moves no row out of its group. */
  lemma {:induction false} ConcatSort<T>(key: Group<T> -> SortKey, groups: seq<Group<T>>)
    ensures multiset(Concat(StableSort(key, groups))) == multiset(Concat(groups))
  {
    if groups != [] {
      var init, last := groups[..|groups| - 1], groups[|groups| - 1];
      ConcatSort(key, init);
      ConcatInsert(key, StableSort(key, init), last);
    }
  }

  /** The rows each group should hold. */
  ghost function Gathered<T>(rows: seq<T>, keys: seq<string>): map<string, seq<T>>
    requires |rows| == |keys|
  {
    map key | key in Elements(keys) :: Select(rows, keys, key)
  }

  /** One group per key, holding exactly the rows of its key. */
  ghost predicate Holds<T>(groups: seq<Group<T>>, content: map<string, seq<T>>) {
    && DistinctKeys(groups)
    && GroupKeys(groups) == content.Keys
    && forall g :: 0 <= g < |groups| ==> groups[g].key in content && groups[g].rows == content[groups[g].key]
  }

  ghost function WithoutEmpty<T>(content: map<string, seq<T>>): map<string, seq<T>> {
    map key | key in content && content[key] != [] :: content[key]
  }

  lemma PartitionHolds<T>(groups: seq<Group<T>>, rows: seq<T>, keys: seq<string>)
    requires |rows| == |keys| && Partitions(groups, rows, keys)
    ensures Holds(groups, Gathered(rows, keys))
  {
    forall g | 0 <= g < |groups|
      ensures groups[g].key in Elements(keys) && groups[g].rows == Select(rows, keys, groups[g].key)
    {
      assert groups[g].key in GroupKeys(groups);
      assert Gathers(groups[g], rows, keys);
    }
  }

  lemma {:induction false} SelectAll<T>(rows: seq<T>, keys: seq<string>, key: string)
    requires |rows| == |keys| && forall k :: k in keys ==> k == key
    ensures Select(rows, keys, key) == rows
  {
    if rows != [] {
      var last := |rows| - 1;
      assert forall k :: k in keys[..last] ==> k in keys;
      SelectAll(rows[..last], keys[..last], key);
      assert keys[last] in keys;
    }
  }

  lemma OneKey<T>(rows: seq<T>, keys: seq<string>)
    requires rows != [] && |rows| == |keys| && forall k :: k in keys ==> k == ""
    ensures Holds([Group("", "", rows, false)], Gathered(rows, keys))
    ensures Headed([Group("", "", rows, false)], keys, keys)
  {
    var groups := [Group("", "", rows, false)];
    SelectAll(rows, keys, "");
    assert keys[0] in keys;
    assert Elements(keys) == {""};
    assert groups[0].key == "";
    assert GroupKeys(groups) == {""};
  }

  method SingleGroup<T>(rows: seq<T>) returns (groups: seq<Group<T>>)
    requires rows != []
    ensures Holds(groups, Gathered(rows, seq(|rows|, i => "")))
    ensures Headed(groups, seq(|rows|, i => ""), seq(|rows|, i => ""))
    ensures multiset(Concat(groups)) == multiset(rows)
  {
    groups := [Group("", "", rows, false)];
    OneKey(rows, seq(|rows|, i => ""));
    ConcatSnoc([], groups[0]);
    assert [] + groups == groups;
  }

  /** Reordering groups keeps what they hold. */
  lemma PermutedHolds<T>(before: seq<Group<T>>, after: seq<Group<T>>, content: map<string, seq<T>>)
    requires Holds(before, content) && multiset(after) == multiset(before)
    ensures Holds(after, content)
  {
    assert forall x :: x in after <==> x in multiset(after);
    assert forall x :: x in before <==> x in multiset(before);
    forall i, j | 0 <= i < j < |after|
      ensures after[i].key != after[j].key
    {
      StillDistinct(before, after, i, j);
    }
    assert GroupKeys(after) == GroupKeys(before) by {
      KeysOfMembers(before);
      KeysOfMembers(after);
    }
    forall g | 0 <= g < |after|
      ensures after[g].key in content && after[g].rows == content[after[g].key]
    {
      assert after[g] in before;
    }
  }

  lemma KeysOfMembers<T>(groups: seq<Group<T>>)
    ensures forall key :: key in GroupKeys(groups) <==> exists x :: x in groups && x.key == key
  {
    forall key
      ensures key in GroupKeys(groups) <==> exists x :: x in groups && x.key == key
    {
      if x :| x in groups && x.key == key {
        var g :| 0 <= g < |groups| && groups[g] == x;
        assert groups[g].key in GroupKeys(groups);
      }
      if key in GroupKeys(groups) {
        var g :| 0 <= g < |groups| && groups[g].key == key;
        assert groups[g] in groups;
      }
    }
  }

  lemma StillDistinct<T>(before: seq<Group<T>>, after: seq<Group<T>>, i: nat, j: nat)
    requires DistinctKeys(before) && multiset(after) == multiset(before) && i < j < |after|
    ensures after[i].key != after[j].key
  {
    if after[i].key == after[j].key {
      assert after[i] in multiset(before) && after[j] in multiset(before);
      var p :| 0 <= p < |before| && before[p] == after[i];
      var q :| 0 <= q < |before| && before[q] == after[j];
      assert p == q;
      RemoveOne(after, i);
      assert (after[..i] + after[i + 1..])[j - 1] == after[i];
      RemoveOne(before, p);
    }
  }

  lemma SameKeys<T>(before: seq<Group<T>>, after: seq<Group<T>>)
    requires |before| == |after| && forall g :: 0 <= g < |before| ==> before[g].key == after[g].key
    ensures GroupKeys(before) == GroupKeys(after)
  {
  }

  /** The positions before n of the groups that show rows. */
  ghost function Kept<T>(groups: seq<Group<T>>, n: nat): (kept: seq<nat>)
    requires n <= |groups|
    ensures Within(kept, n)
  {
    if n == 0 then [] else Kept(groups, n - 1) + if groups[n - 1].rows != [] then [n - 1] else []
  }

  ghost function NonEmpty<T>(groups: seq<Group<T>>): seq<Group<T>> {
    Pick(groups, Kept(groups, |groups|))
  }

  lemma {:induction false} KeptMembers<T>(groups: seq<Group<T>>, n: nat)
    requires n <= |groups|
    ensures StrictlyIncreasing(Kept(groups, n))
    ensures forall i :: 0 <= i < n ==> (i in Kept(groups, n) <==> groups[i].rows != [])
  {
    if n > 0 {
      KeptMembers(groups, n - 1);
      var before := Kept(groups, n - 1);
      assert forall i :: i in before ==> i < n - 1;
    }
  }

  lemma PickSnoc<T>(groups: seq<Group<T>>, order: seq<nat>, k: nat)
    requires Within(order, |groups|) && k < |groups|
    ensures Within(order + [k], |groups|) && Pick(groups, order + [k]) == Pick(groups, order) + [groups[k]]
  {
  }

  lemma {:induction false} ConcatKept<T>(groups: seq<Group<T>>, n: nat)
    requires n <= |groups|
    ensures Concat(Pick(groups, Kept(groups, n))) == Concat(groups[..n])
  {
    if n > 0 {
      ConcatKept(groups, n - 1);
      ConcatSnoc(groups[..n - 1], groups[n - 1]);
      assert groups[..n] == groups[..n - 1] + [groups[n - 1]];
      if groups[n - 1].rows != [] {
        PickSnoc(groups, Kept(groups, n - 1), n - 1);
        ConcatSnoc(Pick(groups, Kept(groups, n - 1)), groups[n - 1]);
      } else {
        assert Kept(groups, n) == Kept(groups, n - 1);
        assert Concat(groups[..n - 1]) + [] == Concat(groups[..n - 1]);
      }
    }
  }

  method DropEmpty<T>(groups: seq<Group<T>>) returns (visible: seq<Group<T>>)
    ensures visible == NonEmpty(groups)
  {
    visible := [];
    for g := 0 to |groups|
      invariant visible == Pick(groups, Kept(groups, g))
    {
      PickSnoc(groups, Kept(groups, g), g);
      if groups[g].rows != [] {
        visible := visible + [groups[g]];
      }
    }
  }

  lemma PickedInOrder<T>(key: Group<T> -> SortKey, position: Group<T> -> int, groups: seq<Group<T>>, kept: seq<nat>)
    requires StablyInOrder(key, position, groups) && Within(kept, |groups|) && StrictlyIncreasing(kept)
    ensures StablyInOrder(key, position, Pick(groups, kept))
  {
  }

  lemma PermutedHeaded<T>(before: seq<Group<T>>, after: seq<Group<T>>, keys: seq<string>, headings: seq<string>)
    requires |keys| == |headings| && Headed(before, keys, headings) && multiset(after) == multiset(before)
    ensures Headed(after, keys, headings)
  {
    forall g | 0 <= g < |after|
      ensures after[g].key in keys && after[g].heading == headings[First(keys, after[g].key)]
    {
      assert after[g] in multiset(before);
    }
  }

  lemma PickedHolds<T>(groups: seq<Group<T>>, kept: seq<nat>, content: map<string, seq<T>>)
    requires Holds(groups, content) && Within(kept, |groups|) && StrictlyIncreasing(kept)
    requires forall i :: 0 <= i < |groups| ==> (i in kept <==> groups[i].rows != [])
    ensures Holds(Pick(groups, kept), WithoutEmpty(content))
  {
    var visible := Pick(groups, kept);
    forall g | 0 <= g < |visible|
      ensures visible[g].rows != [] && visible[g].key in content && visible[g].rows == content[visible[g].key]
    {
      assert kept[g] in kept;
    }
    forall key
      ensures key in GroupKeys(visible) <==> key in WithoutEmpty(content)
    {
      if key in WithoutEmpty(content) {
        assert key in GroupKeys(groups);
        var i :| 0 <= i < |groups| && groups[i].key == key;
        assert groups[i].rows == content[key];
        var k :| 0 <= k < |kept| && kept[k] == i;
        assert visible[k].key == key;
      }
      if key in GroupKeys(visible) {
        var g :| 0 <= g < |visible| && visible[g].key == key;
      }
    }
  }

  lemma NonEmptyHolds<T>(groups: seq<Group<T>>, content: map<string, seq<T>>)
    requires Holds(groups, content)
    ensures Holds(NonEmpty(groups), WithoutEmpty(content)) && Concat(NonEmpty(groups)) == Concat(groups)
  {
    KeptMembers(groups, |groups|);
    PickedHolds(groups, Kept(groups, |groups|), content);
    ConcatKept(groups, |groups|);
    assert groups[..|groups|] == groups;
  }

  lemma {:induction false} SameRowsConcat<T>(before: seq<Group<T>>, after: seq<Group<T>>)
    requires |before| == |after| && forall g :: 0 <= g < |before| ==> after[g].rows == before[g].rows
    ensures Concat(before) == Concat(after)
  {
    if before != [] {
      SameRowsConcat(before[..|before| - 1], after[..|before| - 1]);
    }
  }

  lemma MarkedHolds<T>(before: seq<Group<T>>, after: seq<Group<T>>, content: map<string, seq<T>>)
    requires Holds(before, content)
    requires |after| == |before| && forall g :: 0 <= g < |before| ==>
               after[g] == before[g].(collapsed := after[g].collapsed)
    ensures Holds(after, content) && Concat(after) == Concat(before)
  {
    SameKeys(before, after);
    SameRowsConcat(before, after);
  }

  /** The visible rows of the groups that are not collapsed. */
  ghost function Flatten<T>(groups: seq<Group<T>>): seq<T> {
    if groups == [] then []
    else
      var last := groups[|groups| - 1];
      Flatten(groups[..|groups| - 1]) + if last.collapsed then [] else last.rows
  }

  lemma {:induction false} FlattenConcat<T>(groups: seq<Group<T>>)
    requires forall g :: 0 <= g < |groups| ==> !groups[g].collapsed
    ensures Flatten(groups) == Concat(groups)
  {
    if groups != [] {
      FlattenConcat(groups[..|groups| - 1]);
    }
  }

  method FlattenTaskGroups<T>(groups: seq<Group<T>>) returns (rows: seq<T>)
    ensures rows == Flatten(groups)
  {
    rows := [];
    for g := 0 to |groups|
      invariant rows == Flatten(groups[..g])
    {
      assert groups[..g + 1][..g] == groups[..g];
      if !groups[g].collapsed {
        rows := rows + groups[g].rows;
      }
    }
    assert groups[..|groups|] == groups;
  }

  /** Opens a group at the first row of each key and adds the later rows of the key to it. */
  method GroupByKey<T>(rows: seq<T>, keys: seq<string>, headings: seq<string>) returns (groups: seq<Group<T>>)
    requires |rows| == |keys| == |headings|
    ensures Partitions(groups, rows, keys)
    ensures Headed(groups, keys, headings) && Ascends(Appearance(keys), groups)
  {
    var groupsByKey: map<string, nat> := map[];
    groups := [];
    for i := 0 to |rows|
      invariant Grouping(groups, groupsByKey, rows[..i], keys[..i], headings[..i])
    {
      assert rows[..i + 1] == rows[..i] + [rows[i]];
      assert keys[..i + 1] == keys[..i] + [keys[i]];
      assert headings[..i + 1] == headings[..i] + [headings[i]];
      groups, groupsByKey :=
        Place(groups, groupsByKey, rows[..i], keys[..i], headings[..i], rows[i], keys[i], headings[i]);
    }
    assert rows[..|rows|] == rows && keys[..|rows|] == keys && headings[..|rows|] == headings;
  }
}
