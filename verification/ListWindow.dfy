/**
  The rows of one selected list, in list order: the general projection over
  indexes of all data, and the fast one that builds only the visible window.
 */
module ListWindow {
  import opened Common
  import opened KeyedGroups
  import opened TaskRows

  datatype Key = Key(providerID: string, id: string)

  datatype Provider = Provider(id: string, name: string)

  datatype Space = Space(key: Key, name: string)

  datatype ListInfo = ListInfo(key: Key, spaceID: string, name: string)

  datatype Values = Values(key: Key, values: map<string, string>)

  datatype Data = Data(providers: seq<Provider>, spaces: seq<Space>, lists: seq<ListInfo>, values: seq<Values>,
                       tasks: seq<Task>)

  datatype Node = ListNode(providerID: string, spaceID: string, listID: string) | OtherNode

  /** busy says that grouping, subtask display, search, filter, sorting or the own-tasks mode is on. */
  datatype View = View(activeProviderID: string, node: Node, busy: bool, collapsed: set<string>)

  // ----- indexes: of several items with one key, maps keep the last and searches find the first -----

  function LastIndex<K, T>(items: seq<T>, key: T -> K): map<K, T> {
    if items == [] then map[] else LastIndex(items[..|items| - 1], key)[key(items[|items| - 1]) := items[|items| - 1]]
  }

  method BuildIndex<K(==), T>(items: seq<T>, key: T -> K) returns (index: map<K, T>)
    ensures index == LastIndex(items, key)
  {
    index := map[];
    for i := 0 to |items|
      invariant index == LastIndex(items[..i], key)
    {
      assert items[..i + 1][..i] == items[..i];
      index := index[key(items[i]) := items[i]];
    }
    assert items[..|items|] == items;
  }

  ghost predicate UniqueKeys<K, T>(items: seq<T>, key: T -> K) {
    forall i, j :: 0 <= i < j < |items| ==> key(items[i]) != key(items[j])
  }

  method FindFirst<K(==), T>(items: seq<T>, key: T -> K, wanted: K) returns (found: Option<T>)
    ensures UniqueKeys(items, key) ==> found == Look(LastIndex(items, key), wanted)
  {
    for i := 0 to |items|
      invariant forall k :: 0 <= k < i ==> key(items[k]) != wanted
    {
      if key(items[i]) == wanted {
        if UniqueKeys(items, key) {
          IndexedAt(items, key, i);
        }
        return Some(items[i]);
      }
    }
    NotIndexed(items, key, wanted);
    found := None;
  }

  function Look<K, T>(index: map<K, T>, wanted: K): Option<T> {
    if wanted in index then Some(index[wanted]) else None
  }

  lemma {:induction false} IndexedAt<K, T>(items: seq<T>, key: T -> K, i: nat)
    requires i < |items| && UniqueKeys(items, key)
    ensures Look(LastIndex(items, key), key(items[i])) == Some(items[i])
  {
    if i < |items| - 1 {
      IndexedAt(items[..|items| - 1], key, i);
    }
  }

  lemma {:induction false} NotIndexed<K, T>(items: seq<T>, key: T -> K, wanted: K)
    requires forall k :: 0 <= k < |items| ==> key(items[k]) != wanted
    ensures wanted !in LastIndex(items, key)
  {
    if items != [] {
      NotIndexed(items[..|items| - 1], key, wanted);
    }
  }

  // ----- one row -----

  datatype Index = Index(providers: map<string, Provider>, spaces: map<Key, Space>, lists: map<Key, ListInfo>,
                         values: map<Key, Values>)

  function IndexOf(data: Data): Index {
    Index(LastIndex(data.providers, (p: Provider) => p.id), LastIndex(data.spaces, (s: Space) => s.key),
          LastIndex(data.lists, (l: ListInfo) => l.key), LastIndex(data.values, (v: Values) => v.key))
  }

  function Or(name: string, fallback: string): string { if name == "" then fallback else name }

  function ProviderName(index: Index, id: string): string {
    var provider := Look(index.providers, id);
    if provider.Some? then Or(provider.value.name, id) else id
  }

  /** The name of a list a task is in, or its ID when the list is unknown. */
  function ListName(index: Index, providerID: string, listID: string): string {
    var list := Look(index.lists, Key(providerID, listID));
    if list.Some? then list.value.name else listID
  }

  function ListNames(index: Index, providerID: string, ids: seq<string>): seq<string> {
    if ids == [] then []
    else ListNames(index, providerID, ids[..|ids| - 1]) + [ListName(index, providerID, ids[|ids| - 1])]
  }

  function ColumnValues(index: Index, t: Task): map<string, string> {
    var values := Look(index.values, Key(t.providerID, t.id));
    if values.Some? then values.value.values else map[]
  }

  /** The row of a task shown in a list. */
  function RowIn(index: Index, t: Task, listID: string): TaskRow {
    var list := Look(index.lists, Key(t.providerID, listID));
    var spaceID := if list.Some? then list.value.spaceID else "";
    var space := Look(index.spaces, Key(t.providerID, spaceID));
    TaskRow(t, t.providerID, ProviderName(index, t.providerID), t.assignee,
            spaceID, Or(if space.Some? then space.value.name else "", spaceID),
            listID, Or(if list.Some? then list.value.name else "", listID),
            ListNames(index, t.providerID, MembershipsOf(t.listID, t.listIDs)), ColumnValues(index, t), false, 0, false)
  }

  predicate InList(t: Task, providerID: string, listID: string) {
    t.providerID == providerID && InListsOf(t.listID, t.listIDs, listID)
  }

  /** The rows of a list, in the order of the tasks. */
  function RowsOfList(index: Index, tasks: seq<Task>, providerID: string, listID: string): seq<TaskRow> {
    if tasks == [] then []
    else
      var last := tasks[|tasks| - 1];
      RowsOfList(index, tasks[..|tasks| - 1], providerID, listID)
      + if InList(last, providerID, listID) then [RowIn(index, last, listID)] else []
  }

  // ----- the general projection, in a view without filters, search, grouping and sorting -----

  method TaskRowsOfList(data: Data, view: View) returns (rows: seq<TaskRow>)
    requires view.node.ListNode? && (view.activeProviderID == "" || view.activeProviderID == view.node.providerID)
    ensures rows == RowsOfList(IndexOf(data), data.tasks, view.node.providerID, view.node.listID)
  {
    var providers := BuildIndex(data.providers, (p: Provider) => p.id);
    var spaces := BuildIndex(data.spaces, (s: Space) => s.key);
    var lists := BuildIndex(data.lists, (l: ListInfo) => l.key);
    var values := BuildIndex(data.values, (v: Values) => v.key);
    var index := Index(providers, spaces, lists, values);
    rows := [];
    for i := 0 to |data.tasks|
      invariant rows == RowsOfList(index, data.tasks[..i], view.node.providerID, view.node.listID)
    {
      assert data.tasks[..i + 1][..i] == data.tasks[..i];
      var task := data.tasks[i];
      if view.activeProviderID != "" && task.providerID != view.activeProviderID {
        continue;
      }
      if !InList(task, view.node.providerID, view.node.listID) {
        continue;
      }
      rows := rows + [RowIn(index, task, view.node.listID)];
    }
    assert data.tasks[..|data.tasks|] == data.tasks;
  }

  /** Ungrouped rows are one group, which the empty key can collapse. */
  method VisibleTasks(data: Data, view: View) returns (rows: seq<TaskRow>)
    requires view.node.ListNode? && (view.activeProviderID == "" || view.activeProviderID == view.node.providerID)
    ensures rows == if "" in view.collapsed then []
                    else RowsOfList(IndexOf(data), data.tasks, view.node.providerID, view.node.listID)
  {
    var all := TaskRowsOfList(data, view);
    if |all| == 0 {
      return [];
    }
    var group := Group("", "", all, "" in view.collapsed);
    rows := FlattenTaskGroups([group]);
    assert Flatten<TaskRow>([]) == [] && [group][..0] == [];
    assert Flatten([group]) == Flatten([group][..0]) + if group.collapsed then [] else group.rows;
  }

  // ----- the fast projection -----

  ghost predicate Unique(data: Data) {
    && UniqueKeys(data.providers, (p: Provider) => p.id) && UniqueKeys(data.spaces, (s: Space) => s.key)
    && UniqueKeys(data.lists, (l: ListInfo) => l.key) && UniqueKeys(data.tasks, (t: Task) => Key(t.providerID, t.id))
  }

  /** The tasks of a list, in order. */
  ghost function Matching(tasks: seq<Task>, providerID: string, listID: string): seq<Task> {
    if tasks == [] then []
    else
      var last := tasks[|tasks| - 1];
      Matching(tasks[..|tasks| - 1], providerID, listID) + if InList(last, providerID, listID) then [last] else []
  }

  lemma {:induction false} MatchingMembers(tasks: seq<Task>, providerID: string, listID: string, t: Task)
    ensures t in Matching(tasks, providerID, listID) <==>
              t in tasks && t.providerID == providerID && (t.listID == listID || listID in t.listIDs)
  {
    if tasks != [] {
      var init, last := tasks[..|tasks| - 1], tasks[|tasks| - 1];
      MatchingMembers(init, providerID, listID, t);
      assert tasks == init + [last];
    }
  }

  /** A list shows exactly the tasks that have it among their lists, its primary list or not. */
  lemma ListsTasks(data: Data, providerID: string, listID: string, t: Task)
    ensures (exists row :: row in RowsOfList(IndexOf(data), data.tasks, providerID, listID) && row.task == t) <==>
              t in data.tasks && t.providerID == providerID && (t.listID == listID || listID in t.listIDs)
  {
    var matching := Matching(data.tasks, providerID, listID);
    var rows := RowsOfList(IndexOf(data), data.tasks, providerID, listID);
    RowsAreMatching(IndexOf(data), data.tasks, providerID, listID);
    MatchingMembers(data.tasks, providerID, listID, t);
    if t in matching {
      var k :| 0 <= k < |matching| && matching[k] == t;
      assert rows[k].task == t && rows[k] in rows;
    }
  }

  /** A row names the list, its space and its provider as they are stored; what has no name is named by its ID. */
  lemma RowSays(data: Data, t: Task, list: ListInfo, space: Space, provider: Provider)
    requires Unique(data) && list in data.lists && space in data.spaces && provider in data.providers
    requires list.key.providerID == t.providerID && provider.id == t.providerID
    requires space.key == Key(t.providerID, list.spaceID)
    ensures var row := RowIn(IndexOf(data), t, list.key.id);
            && row.task == t && row.providerID == t.providerID && row.assignee == t.assignee
            && row.listID == list.key.id && row.listName == (if list.name == "" then list.key.id else list.name)
            && row.spaceID == list.spaceID && row.spaceName == (if space.name == "" then list.spaceID else space.name)
            && row.providerName == (if provider.name == "" then t.providerID else provider.name)
            && row.hierarchyDepth == 0
  {
    var l :| 0 <= l < |data.lists| && data.lists[l] == list;
    var s :| 0 <= s < |data.spaces| && data.spaces[s] == space;
    var p :| 0 <= p < |data.providers| && data.providers[p] == provider;
    IndexedAt(data.lists, (x: ListInfo) => x.key, l);
    IndexedAt(data.spaces, (x: Space) => x.key, s);
    IndexedAt(data.providers, (x: Provider) => x.id, p);
  }

  lemma {:induction false} RowsAreMatching(index: Index, tasks: seq<Task>, providerID: string, listID: string)
    ensures var matching, rows := Matching(tasks, providerID, listID), RowsOfList(index, tasks, providerID, listID);
            |rows| == |matching| && forall k :: 0 <= k < |rows| ==> rows[k] == RowIn(index, matching[k], listID)
  {
    if tasks != [] {
      RowsAreMatching(index, tasks[..|tasks| - 1], providerID, listID);
    }
  }

  lemma {:induction false} MatchingGrows(tasks: seq<Task>, providerID: string, listID: string, i: nat)
    requires i <= |tasks|
    ensures Matching(tasks[..i], providerID, listID) <= Matching(tasks, providerID, listID)
    decreases |tasks|
  {
    if i < |tasks| {
      var init := tasks[..|tasks| - 1];
      MatchingGrows(init, providerID, listID, i);
      assert init[..i] == tasks[..i];
    } else {
      assert tasks[..i] == tasks;
    }
  }

  lemma MatchingInList(tasks: seq<Task>, providerID: string, listID: string, i: nat)
    requires i < |tasks|
    ensures Matching(tasks[..i + 1], providerID, listID)
            == Matching(tasks[..i], providerID, listID) + if InList(tasks[i], providerID, listID) then [tasks[i]]
                                                          else []
  {
    assert tasks[..i + 1][..i] == tasks[..i];
  }

  predicate IsNode(list: ListInfo, node: Node)
    requires node.ListNode?
  {
    list.key == Key(node.providerID, node.listID) && list.spaceID == node.spaceID
  }

  /** The selected node is a list that exists. */
  ghost predicate Selected(data: Data, node: Node)
    requires node.ListNode?
  {
    exists i :: 0 <= i < |data.lists| && IsNode(data.lists[i], node)
  }

  method SelectedList(data: Data, node: Node) returns (list: Option<ListInfo>)
    requires node.ListNode?
    ensures list.Some? <==> Selected(data, node)
    ensures list.Some? ==> list.value.key == Key(node.providerID, node.listID)
    ensures list.Some? && Unique(data) ==> Look(IndexOf(data).lists, list.value.key) == list
  {
    for i := 0 to |data.lists|
      invariant forall k :: 0 <= k < i ==> !IsNode(data.lists[k], node)
    {
      var l := data.lists[i];
      if l.key == Key(node.providerID, node.listID) && l.spaceID == node.spaceID {
        if Unique(data) {
          IndexedAt(data.lists, (l: ListInfo) => l.key, i);
        }
        return Some(l);
      }
    }
    list := None;
  }

  method NamesOf(data: Data, providerID: string, ids: seq<string>) returns (names: seq<string>)
    ensures Unique(data) ==> names == ListNames(IndexOf(data), providerID, ids)
  {
    names := [];
    for i := 0 to |ids|
      invariant Unique(data) ==> names == ListNames(IndexOf(data), providerID, ids[..i])
    {
      assert ids[..i + 1][..i] == ids[..i];
      var list := FindFirst(data.lists, (l: ListInfo) => l.key, Key(providerID, ids[i]));
      names := names + [if list.Some? then list.value.name else ids[i]];
    }
    assert ids[..|ids|] == ids;
  }

  /** What all rows of a list share. */
  datatype Shared = Shared(list: ListInfo, listName: string, spaceName: string, providerName: string)

  ghost predicate SharedOf(data: Data, s: Shared) {
    var index := IndexOf(data);
    && Look(index.lists, s.list.key) == Some(s.list)
    && s.listName == Or(s.list.name, s.list.key.id)
    && s.providerName == ProviderName(index, s.list.key.providerID)
    && var space := Look(index.spaces, Key(s.list.key.providerID, s.list.spaceID));
       s.spaceName == Or(if space.Some? then space.value.name else "", s.list.spaceID)
  }

  method SharedFor(data: Data, list: ListInfo) returns (s: Shared)
    ensures s.list == list
    ensures Unique(data) && Look(IndexOf(data).lists, list.key) == Some(list) ==> SharedOf(data, s)
  {
    var provider := FindFirst(data.providers, (p: Provider) => p.id, list.key.providerID);
    var providerName := if provider.Some? then Or(provider.value.name, list.key.providerID) else list.key.providerID;
    var space := FindFirst(data.spaces, (s: Space) => s.key, Key(list.key.providerID, list.spaceID));
    var spaceName := list.spaceID;
    if space.Some? && space.value.name != "" {
      spaceName := space.value.name;
    }
    s := Shared(list, Or(list.name, list.key.id), spaceName, providerName);
  }

  /** The row without its column values. */
  function Plain(row: TaskRow): TaskRow { row.(columnValues := map[]) }

  method SimpleListTaskRow(data: Data, s: Shared, t: Task) returns (row: TaskRow)
    requires InList(t, s.list.key.providerID, s.list.key.id)
    ensures row.task == t && row.providerID == t.providerID
    ensures Unique(data) && SharedOf(data, s) ==> row == Plain(RowIn(IndexOf(data), t, s.list.key.id))
  {
    var names := NamesOf(data, t.providerID, MembershipsOf(t.listID, t.listIDs));
    row := TaskRow(t, t.providerID, s.providerName, t.assignee, s.list.spaceID, s.spaceName, s.list.key.id, s.listName,
                   names, map[], false, 0, false);
  }

  /** The rows show the tasks, still without column values. */
  ghost predicate Shows(data: Data, s: Shared, rows: seq<TaskRow>, tasks: seq<Task>) {
    && |rows| == |tasks|
    && (forall k :: 0 <= k < |rows| ==> rows[k].task == tasks[k] && rows[k].providerID == tasks[k].providerID)
    && (Unique(data) && SharedOf(data, s) ==>
          forall k :: 0 <= k < |rows| ==> rows[k] == Plain(RowIn(IndexOf(data), tasks[k], s.list.key.id)))
  }

  function Min(a: int, b: int): int { if a < b then a else b }

  function Max(a: int, b: int): int { if a < b then b else a }

  /** At most limit tasks from an offset on. */
  ghost function Slice<T>(s: seq<T>, offset: nat, limit: nat): seq<T> {
    if offset >= |s| then [] else s[offset..Min(offset + limit, |s|)]
  }

  lemma SliceSnoc<T>(s: seq<T>, x: T, offset: nat, limit: nat)
    ensures Slice(s + [x], offset, limit) ==
              Slice(s, offset, limit) + if offset <= |s| < offset + limit then [x] else []
  {
  }

  lemma SliceFull<T>(s: seq<T>, whole: seq<T>, offset: nat, limit: nat)
    requires s <= whole && |Slice(s, offset, limit)| == limit
    ensures Slice(whole, offset, limit) == Slice(s, offset, limit)
  {
  }

  lemma ShowsSnoc(data: Data, s: Shared, rows: seq<TaskRow>, tasks: seq<Task>, row: TaskRow, t: Task)
    requires Shows(data, s, rows, tasks) && row.task == t && row.providerID == t.providerID
    requires Unique(data) && SharedOf(data, s) ==> row == Plain(RowIn(IndexOf(data), t, s.list.key.id))
    ensures Shows(data, s, rows + [row], tasks + [t])
  {
  }

  /** What the loop knows after the tasks found so far. */
  ghost predicate Collected(data: Data, s: Shared, found: seq<Task>, offset: nat, limit: nat, rows: seq<TaskRow>,
                            matched: nat, last: Option<Task>) {
    && matched == |found| && Shows(data, s, rows, Slice(found, offset, limit))
    && last == if found == [] then None else Some(found[|found| - 1])
  }

  method CollectOne(data: Data, s: Shared, offset: nat, limit: nat, rows: seq<TaskRow>, matched: nat, task: Task,
                    ghost found: seq<Task>, ghost last: Option<Task>)
      returns (after: seq<TaskRow>)
    requires Collected(data, s, found, offset, limit, rows, matched, last) && |rows| < limit
    requires InList(task, s.list.key.providerID, s.list.key.id)
    ensures Collected(data, s, found + [task], offset, limit, after, matched + 1, Some(task))
    ensures |after| <= limit
  {
    SliceSnoc(found, task, offset, limit);
    after := rows;
    if matched >= offset {
      var row := SimpleListTaskRow(data, s, task);
      ShowsSnoc(data, s, rows, Slice(found, offset, limit), row, task);
      after := rows + [row];
    }
  }

  /** A full window does not change with the tasks that follow. */
  lemma WindowFull(data: Data, s: Shared, offset: nat, limit: nat, rows: seq<TaskRow>, matched: nat,
                   last: Option<Task>, i: nat)
    requires i <= |data.tasks| && |rows| == limit
    requires Collected(data, s, Matching(data.tasks[..i], s.list.key.providerID, s.list.key.id), offset, limit, rows,
                       matched, last)
    ensures Shows(data, s, rows, Slice(Matching(data.tasks, s.list.key.providerID, s.list.key.id), offset, limit))
  {
    var found := Matching(data.tasks[..i], s.list.key.providerID, s.list.key.id);
    MatchingGrows(data.tasks, s.list.key.providerID, s.list.key.id, i);
    SliceFull(found, Matching(data.tasks, s.list.key.providerID, s.list.key.id), offset, limit);
  }

  /** The loop over the tasks, which stops as soon as the window is full. */
  method CollectRows(data: Data, s: Shared, offset: nat, limit: nat)
      returns (rows: seq<TaskRow>, matched: nat, last: Option<Task>)
    requires limit > 0
    ensures var matching := Matching(data.tasks, s.list.key.providerID, s.list.key.id);
            && Shows(data, s, rows, Slice(matching, offset, limit))
            && (rows == [] ==> Collected(data, s, matching, offset, limit, rows, matched, last))
  {
    var providerID, listID := s.list.key.providerID, s.list.key.id;
    rows, matched, last := [], 0, None;
    assert Collected(data, s, Matching(data.tasks[..0], providerID, listID), offset, limit, rows, matched, last);
    hide Shows, Matching, Slice, InList;
    for i := 0 to |data.tasks|
      invariant |rows| < limit
      invariant Collected(data, s, Matching(data.tasks[..i], providerID, listID), offset, limit, rows, matched, last)
    {
      MatchingInList(data.tasks, providerID, listID, i);
      var task := data.tasks[i];
      if !InList(task, providerID, listID) {
        assert Matching(data.tasks[..i + 1], providerID, listID) == Matching(data.tasks[..i], providerID, listID);
        continue;
      }
      ghost var found := Matching(data.tasks[..i], providerID, listID);
      rows := CollectOne(data, s, offset, limit, rows, matched, task, found, last);
      matched, last := matched + 1, Some(task);
      if |rows| == limit {
        WindowFull(data, s, offset, limit, rows, matched, last, i + 1);
        return;
      }
    }
    assert data.tasks[..|data.tasks|] == data.tasks;
  }

  // ----- column values -----

  function RowKey(row: TaskRow): Key { Key(row.providerID, row.task.id) }

  /** Each row with the values of the last entry for its task. */
  ghost predicate Valued(values: seq<Values>, plain: seq<TaskRow>, rows: seq<TaskRow>) {
    && |rows| == |plain|
    && forall k :: 0 <= k < |rows| ==> rows[k] == WithValues(LastIndex(values, (v: Values) => v.key), plain[k])
  }

  function WithValues(index: map<Key, Values>, row: TaskRow): TaskRow {
    var values := Look(index, RowKey(row));
    if values.Some? then row.(columnValues := values.value.values) else row
  }

  ghost predicate DistinctKeys(rows: seq<TaskRow>) {
    forall i, j :: 0 <= i < j < |rows| ==> RowKey(rows[i]) != RowKey(rows[j])
  }

  /** Positions of the rows by task. */
  ghost predicate Positioned(indexes: map<Key, nat>, rows: seq<TaskRow>, n: nat)
    requires n <= |rows|
  {
    && (forall key :: key in indexes ==> indexes[key] < n && RowKey(rows[indexes[key]]) == key)
    && forall k :: 0 <= k < n ==> RowKey(rows[k]) in indexes
  }

  method BuildPositions(rows: seq<TaskRow>) returns (indexes: map<Key, nat>)
    ensures Positioned(indexes, rows, |rows|)
  {
    indexes := map[];
    for k := 0 to |rows|
      invariant Positioned(indexes, rows, k)
    {
      indexes := indexes[RowKey(rows[k]) := k];
    }
  }

  lemma ValuedNext(values: seq<Values>, i: nat, plain: seq<TaskRow>, rows: seq<TaskRow>, after: seq<TaskRow>)
    requires i < |values| && Valued(values[..i], plain, rows) && |after| == |rows|
    requires forall k :: 0 <= k < |rows| ==>
               after[k] == if RowKey(plain[k]) == values[i].key then rows[k].(columnValues := values[i].values)
                           else rows[k]
    ensures Valued(values[..i + 1], plain, after)
  {
    assert values[..i + 1][..i] == values[..i];
  }

  lemma OnePosition(indexes: map<Key, nat>, plain: seq<TaskRow>, key: Key)
    requires Positioned(indexes, plain, |plain|) && DistinctKeys(plain)
    ensures forall k :: 0 <= k < |plain| ==> (RowKey(plain[k]) == key <==> key in indexes && indexes[key] == k)
  {
  }

  method FillValues(values: seq<Values>, plain: seq<TaskRow>) returns (rows: seq<TaskRow>)
    ensures |rows| == |plain|
    ensures DistinctKeys(plain) ==> Valued(values, plain, rows)
  {
    var indexes := BuildPositions(plain);
    rows := plain;
    for i := 0 to |values|
      invariant |rows| == |plain|
      invariant DistinctKeys(plain) ==> Valued(values[..i], plain, rows)
    {
      ghost var before := rows;
      var entry := values[i];
      if entry.key in indexes {
        rows := rows[indexes[entry.key] := rows[indexes[entry.key]].(columnValues := entry.values)];
      }
      if DistinctKeys(plain) {
        OnePosition(indexes, plain, entry.key);
        ValuedNext(values, i, plain, before, rows);
      }
    }
    assert values[..|values|] == values;
  }

  // ----- the window -----

  /** The first row shown: the requested one, or the last row there is. */
  function WindowStart(count: nat, offset: int): nat {
    if count == 0 then Max(offset, 0) else Min(Max(offset, 0), count - 1)
  }

  lemma {:induction false} MatchingIn(tasks: seq<Task>, providerID: string, listID: string)
    ensures forall t :: t in Matching(tasks, providerID, listID) ==> InList(t, providerID, listID) && t in tasks
  {
    if tasks != [] {
      MatchingIn(tasks[..|tasks| - 1], providerID, listID);
      assert forall t :: t in tasks[..|tasks| - 1] ==> t in tasks;
    }
  }

  lemma {:induction false} MatchingUnique(tasks: seq<Task>, providerID: string, listID: string)
    requires UniqueKeys(tasks, (t: Task) => Key(t.providerID, t.id))
    ensures UniqueKeys(Matching(tasks, providerID, listID), (t: Task) => Key(t.providerID, t.id))
  {
    if tasks != [] {
      var init, last := tasks[..|tasks| - 1], tasks[|tasks| - 1];
      MatchingUnique(init, providerID, listID);
      MatchingIn(init, providerID, listID);
      var matching := Matching(init, providerID, listID);
      forall i | 0 <= i < |matching|
        ensures Key(matching[i].providerID, matching[i].id) != Key(last.providerID, last.id)
      {
        assert matching[i] in init;
        var j :| 0 <= j < |init| && init[j] == matching[i];
      }
    }
  }

  /** Filling the column values completes the row. */
  lemma RowFilled(data: Data, t: Task, listID: string)
    ensures WithValues(LastIndex(data.values, (v: Values) => v.key), Plain(RowIn(IndexOf(data), t, listID))) ==
              RowIn(IndexOf(data), t, listID)
  {
  }

  /** The rows of the window before their column values are filled in, and where it starts. */
  method PlainWindow(data: Data, s: Shared, offset: int, limit: int) returns (rows: seq<TaskRow>, from: nat)
    requires limit > 0
    ensures var matching := Matching(data.tasks, s.list.key.providerID, s.list.key.id);
            from == WindowStart(|matching|, offset) && Shows(data, s, rows, Slice(matching, from, limit))
  {
    ghost var matching := Matching(data.tasks, s.list.key.providerID, s.list.key.id);
    from := Max(offset, 0);
    var matched: nat, last: Option<Task>;
    rows, matched, last := CollectRows(data, s, from, limit);
    if |rows| == 0 && matched > 0 {
      from := matched - 1;
      MatchingIn(data.tasks, s.list.key.providerID, s.list.key.id);
      assert last.value in matching;
      var row := SimpleListTaskRow(data, s, last.value);
      rows := [row];
      assert Slice(matching, from, limit) == [last.value];
    }
  }

  lemma SliceDistinct(matching: seq<Task>, from: nat, limit: nat, plain: seq<TaskRow>)
    requires UniqueKeys(matching, (t: Task) => Key(t.providerID, t.id))
    requires var tasks := Slice(matching, from, limit);
             |plain| == |tasks|
             && forall k :: 0 <= k < |plain| ==> plain[k].task == tasks[k] && plain[k].providerID == tasks[k].providerID
    ensures DistinctKeys(plain)
  {
    var key := (t: Task) => Key(t.providerID, t.id);
    forall i, j | 0 <= i < j < |plain|
      ensures RowKey(plain[i]) != RowKey(plain[j])
    {
      assert key(matching[from + i]) != key(matching[from + j]);
    }
  }

  lemma WindowFilled(data: Data, s: Shared, from: nat, limit: nat, plain: seq<TaskRow>, rows: seq<TaskRow>)
    requires Unique(data) && SharedOf(data, s)
    requires Shows(data, s, plain, Slice(Matching(data.tasks, s.list.key.providerID, s.list.key.id), from, limit))
    requires DistinctKeys(plain) ==> Valued(data.values, plain, rows)
    ensures rows == Slice(RowsOfList(IndexOf(data), data.tasks, s.list.key.providerID, s.list.key.id), from, limit)
  {
    var providerID, listID := s.list.key.providerID, s.list.key.id;
    var matching := Matching(data.tasks, providerID, listID);
    RowsAreMatching(IndexOf(data), data.tasks, providerID, listID);
    MatchingUnique(data.tasks, providerID, listID);
    var tasks := Slice(matching, from, limit);
    SliceDistinct(matching, from, limit, plain);
    forall k | 0 <= k < |plain|
      ensures rows[k] == RowIn(IndexOf(data), tasks[k], listID)
    {
      RowFilled(data, tasks[k], listID);
    }
  }

  /** The visible window of a list; None where the fast form does not apply. */
  method SimpleListTaskRows(data: Data, view: View, offset: int, limit: int) returns (r: Option<(seq<TaskRow>, nat)>)
    ensures r.Some? <==> && !view.busy && view.node.ListNode? && Selected(data, view.node) && limit > 0
                         && (view.activeProviderID == "" || view.activeProviderID == view.node.providerID)
    ensures r.Some? && Unique(data) ==>
              var all := RowsOfList(IndexOf(data), data.tasks, view.node.providerID, view.node.listID);
              r.value.1 == WindowStart(|all|, offset) && r.value.0 == Slice(all, r.value.1, limit)
    ensures r.Some? && Unique(data) ==>
              var all := RowsOfList(IndexOf(data), data.tasks, view.node.providerID, view.node.listID);
              && (offset < 0 ==> r.value.1 == 0) && (0 <= offset < |all| ==> r.value.1 == offset)
              && (0 < |all| <= offset ==> r.value.1 == |all| - 1)
              && (all == [] ==> r.value.0 == [])
              && (all != [] ==> r.value.0 == all[r.value.1..Min(r.value.1 + limit, |all|)])
  {
    if view.busy || !view.node.ListNode? {
      return None;
    }
    var list := SelectedList(data, view.node);
    if list.None? || (view.activeProviderID != "" && view.activeProviderID != list.value.key.providerID) || limit <= 0 {
      return None;
    }
    var s := SharedFor(data, list.value);
    var plain, from := PlainWindow(data, s, offset, limit);
    var rows := FillValues(data.values, plain);
    if Unique(data) {
      RowsAreMatching(IndexOf(data), data.tasks, view.node.providerID, view.node.listID);
      WindowFilled(data, s, from, limit, plain, rows);
      WindowSlice(RowsOfList(IndexOf(data), data.tasks, view.node.providerID, view.node.listID), offset, limit);
      hide RowsOfList, IndexOf, WindowStart, Slice;
    }
    r := Some((rows, from));
  }

  /** Where the window starts, and what it shows. */
  lemma WindowSlice(all: seq<TaskRow>, offset: int, limit: nat)
    ensures var from := WindowStart(|all|, offset);
            && (offset < 0 ==> from == 0) && (0 <= offset < |all| ==> from == offset)
            && (0 < |all| <= offset ==> from == |all| - 1)
            && (all == [] ==> Slice(all, from, limit) == [])
            && (all != [] ==> Slice(all, from, limit) == all[from..Min(from + limit, |all|)])
  {
  }

  /** The window is the slice of the visible tasks, exactly when the one group of the view is not collapsed or empty. */
  method WindowRefines(data: Data, view: View, offset: int, limit: nat)
      returns (window: Option<(seq<TaskRow>, nat)>, visible: seq<TaskRow>)
    requires Unique(data) && view.node.ListNode?
               && (view.activeProviderID == "" || view.activeProviderID == view.node.providerID)
    ensures var all := RowsOfList(IndexOf(data), data.tasks, view.node.providerID, view.node.listID);
            window.Some? ==>
              (window.value == (Slice(visible, window.value.1, limit), WindowStart(|visible|, offset)) <==>
               "" !in view.collapsed || all == [])
  {
    window := SimpleListTaskRows(data, view, offset, limit);
    visible := VisibleTasks(data, view);
  }
}
