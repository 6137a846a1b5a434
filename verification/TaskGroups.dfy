/**
  Grouping task rows for presentation: rows fall into groups by the status,
  assignee or priority of the task at the top of their tree, and every group is
  arranged as a hierarchy of its own.
 */
module TaskGroups {
  import opened Common
  import opened KeyedGroups
  import opened ParentGraph
  import opened Sorting
  import opened Text
  import opened TaskRows
  import opened TaskHierarchy
  import opened HierarchyLaws
  import opened HierarchyAgreement

  datatype GroupMode = Ungrouped | ByStatus | ByAssignee | ByPriority

  type TaskGroup = Group<TaskRow>

  // ----- the task that decides a row's group -----

  /** Walking up at most the given number of parents. */
  ghost function Upward(all: map<TaskRef, Task>, provider: string, task: Task, steps: nat): Task
    decreases steps
  {
    if steps == 0 || !task.HasParent() || TaskRef(provider, task.parentTaskID.value) !in all then task
    else Upward(all, provider, all[TaskRef(provider, task.parentTaskID.value)], steps - 1)
  }

  ghost function GroupingTask(row: TaskRow, all: map<TaskRef, Task>): Task {
    Upward(all, row.providerID, row.task, |all| + 1)
  }

  function GroupValue(task: Task, mode: GroupMode): string {
    match mode
    case ByStatus => if Trim(task.status) == "" then "Unspecified" else Trim(task.status)
    case ByAssignee => if Trim(task.assignee) == "" then "Unassigned" else Trim(task.assignee)
    case ByPriority =>
      if Trim(task.priority) == "" || Normalize(Trim(task.priority)) == "none" then "None" else Trim(task.priority)
    case Ungrouped => "Tasks"
  }

  ghost function HeadingOf(row: TaskRow, mode: GroupMode, all: map<TaskRef, Task>): string {
    GroupValue(GroupingTask(row, all), mode)
  }

  ghost function KeyOf(row: TaskRow, mode: GroupMode, all: map<TaskRef, Task>): string {
    Normalize(HeadingOf(row, mode, all))
  }

  method GroupingRowTask(row: TaskRow, all: map<TaskRef, Task>) returns (task: Task)
    ensures task == GroupingTask(row, all)
  {
    task := row.task;
    var depth := 0;
    while task.HasParent() && depth <= |all|
      invariant depth <= |all| + 1
      invariant Upward(all, row.providerID, task, |all| + 1 - depth) == GroupingTask(row, all)
      decreases |all| + 1 - depth
    {
      var parent := TaskRef(row.providerID, task.parentTaskID.value);
      if parent !in all {
        break;
      }
      task := all[parent];
      depth := depth + 1;
    }
  }

  // ----- a whole tree falls into one group -----

  ghost function Lineage(all: map<TaskRef, Task>, rank: map<TaskRef, nat>, ref: TaskRef): (line: seq<TaskRef>)
    requires KeyedByRef(all) && Ranked(rank, all) && ref in all
    ensures |line| > 0 && line[0] == ref
    ensures forall i :: 0 <= i < |line| ==> line[i] in all && rank[line[i]] <= rank[ref]
    ensures Distinct(line)
    decreases rank[ref]
  {
    if all[ref].HasParent() && all[ref].ParentRef() in all then [ref] + Lineage(all, rank, all[ref].ParentRef())
    else [ref]
  }

  lemma {:induction false} UpwardStops(all: map<TaskRef, Task>, rank: map<TaskRef, nat>, ref: TaskRef, steps: nat)
    requires KeyedByRef(all) && Ranked(rank, all) && ref in all && |Lineage(all, rank, ref)| <= steps + 1
    ensures Upward(all, ref.providerID, all[ref], steps) == Upward(all, ref.providerID, all[ref], steps + 1)
    decreases rank[ref]
  {
    if all[ref].HasParent() && all[ref].ParentRef() in all {
      UpwardStops(all, rank, all[ref].ParentRef(), steps - 1);
    }
  }

  lemma ParentSameGroup(row: TaskRow, parent: TaskRow, all: map<TaskRef, Task>, mode: GroupMode)
    requires KeyedByRef(all) && Acyclic(ParentLinks(all)) && ChildRow(row, parent, all)
    ensures KeyOf(row, mode, all) == KeyOf(parent, mode, all)
  {
    var rank := RankTasks(all);
    var line := Lineage(all, rank, parent.Ref());
    Pigeonhole(line, all.Keys);
    UpwardStops(all, rank, parent.Ref(), |all|);
  }

  ghost predicate StoredRow(row: TaskRow, all: map<TaskRef, Task>) {
    row.Ref() in all && all[row.Ref()] == row.task && row.providerID == row.task.providerID
  }

  lemma {:induction false} AncestorSameGroup(row: TaskRow, ancestor: TaskRow, all: map<TaskRef, Task>, mode: GroupMode,
                                             n: nat)
    requires KeyedByRef(all) && Acyclic(ParentLinks(all)) && StoredRow(row, all) && StoredRow(ancestor, all)
    requires Up(ParentLinks(all), row.Ref(), n) == Some(ancestor.Ref())
    ensures KeyOf(row, mode, all) == KeyOf(ancestor, mode, all)
    decreases n
  {
    var links := ParentLinks(all);
    if n == 0 {
      assert row.task == ancestor.task;
    } else {
      UpStops(links, row.Ref(), 1, n);
      assert Up(links, row.Ref(), 0) == Some(row.Ref());
      UpSum(links, row.Ref(), 1, links[row.Ref()], n - 1);
      UpStored(all, links[row.Ref()], n - 1, ancestor.Ref());
      var parent := row.(task := all[links[row.Ref()]]);
      ParentSameGroup(row, parent, all, mode);
      AncestorSameGroup(parent, ancestor, all, mode, n - 1);
    }
  }

  /** Only stored tasks have stored ancestors. */
  lemma UpStored(all: map<TaskRef, Task>, x: TaskRef, n: nat, y: TaskRef)
    requires Up(ParentLinks(all), x, n) == Some(y) && y in all
    ensures x in all
  {
    if n > 0 {
      UpStops(ParentLinks(all), x, 1, n);
      assert Up(ParentLinks(all), x, 0) == Some(x);
    }
  }

  /** Without cycles a task and everything below it fall into the same group. */
  lemma TreeSameGroup(row: TaskRow, ancestor: TaskRow, all: map<TaskRef, Task>, mode: GroupMode)
    requires KeyedByRef(all) && Acyclic(ParentLinks(all)) && StoredRow(row, all) && StoredRow(ancestor, all)
    requires Descends(ParentLinks(all), row.Ref(), ancestor.Ref())
    ensures KeyOf(row, mode, all) == KeyOf(ancestor, mode, all)
  {
    var n: nat :| Up(ParentLinks(all), row.Ref(), n) == Some(ancestor.Ref());
    AncestorSameGroup(row, ancestor, all, mode, n);
  }

  // ----- grouping -----

  ghost function KeysOf(rows: seq<TaskRow>, mode: GroupMode, all: map<TaskRef, Task>): (keys: seq<string>)
    ensures |keys| == |rows|
  {
    if rows == [] then []
    else KeysOf(rows[..|rows| - 1], mode, all) + [KeyOf(rows[|rows| - 1], mode, all)]
  }

  ghost function HeadingsOf(rows: seq<TaskRow>, mode: GroupMode, all: map<TaskRef, Task>): (headings: seq<string>)
    ensures |headings| == |rows|
  {
    if rows == [] then []
    else HeadingsOf(rows[..|rows| - 1], mode, all) + [HeadingOf(rows[|rows| - 1], mode, all)]
  }

  lemma {:induction false} KeysNormal(rows: seq<TaskRow>, mode: GroupMode, all: map<TaskRef, Task>, i: nat)
    requires i < |rows|
    ensures KeysOf(rows, mode, all)[i] == Normalize(HeadingsOf(rows, mode, all)[i])
    ensures HeadingsOf(rows, mode, all)[i] == HeadingOf(rows[i], mode, all)
  {
    if i < |rows| - 1 {
      KeysNormal(rows[..|rows| - 1], mode, all, i);
    }
  }

  method RowKey(row: TaskRow, mode: GroupMode, all: map<TaskRef, Task>) returns (key: string, heading: string)
    ensures key == KeyOf(row, mode, all) && heading == HeadingOf(row, mode, all)
  {
    var task := GroupingRowTask(row, all);
    heading := GroupValue(task, mode);
    key := Normalize(heading);
  }

  method KeysAndHeadings(rows: seq<TaskRow>, mode: GroupMode, all: map<TaskRef, Task>)
      returns (keys: seq<string>, headings: seq<string>)
    ensures keys == KeysOf(rows, mode, all) && headings == HeadingsOf(rows, mode, all)
  {
    hide KeyOf, HeadingOf;
    keys, headings := [], [];
    for i := 0 to |rows|
      invariant keys == KeysOf(rows[..i], mode, all) && headings == HeadingsOf(rows[..i], mode, all)
    {
      var key, heading := RowKey(rows[i], mode, all);
      keys, headings := keys + [key], headings + [heading];
      assert rows[..i + 1][..i] == rows[..i];
    }
    assert rows[..|rows|] == rows;
  }

  /** One group per key, in the order in which the keys appear, headed by the value of the key's first row. */
  method GatherTaskRows(rows: seq<TaskRow>, mode: GroupMode, all: map<TaskRef, Task>) returns (groups: seq<TaskGroup>)
    requires mode != Ungrouped
    ensures Partitions(groups, rows, KeysOf(rows, mode, all))
    ensures Headed(groups, KeysOf(rows, mode, all), HeadingsOf(rows, mode, all))
    ensures Ascends(Appearance(KeysOf(rows, mode, all)), groups)
  {
    var keys, headings := KeysAndHeadings(rows, mode, all);
    groups := GroupByKey(rows, keys, headings);
  }

  // ----- the order of groups -----

  function PriorityRank(priority: string): int {
    var p := Normalize(priority);
    if p in {"urgent", "critical", "p0"} then 4
    else if p in {"high", "p1"} then 3
    else if p in {"normal", "medium", "p2"} then 2
    else if p in {"low", "p3"} then 1
    else 0
  }

  function GroupingOrder(mode: GroupMode, group: TaskGroup): SortKey {
    if mode == ByPriority then SortKey(0, -PriorityRank(group.key), "")
    else SortKey(0, 0, Normalize(group.heading))
  }

  /** Configured statuses come first, in their configured order. */
  function StatusOrder(configured: map<string, int>, group: TaskGroup): SortKey {
    if group.key in configured then SortKey(0, configured[group.key], Normalize(group.heading))
    else SortKey(1, 0, Normalize(group.heading))
  }

  // ----- the visible groups -----

  /** A row regardless of the depth it is shown at. */
  function Plain(row: TaskRow): TaskRow { row.(hierarchyDepth := 0) }

  ghost function PlainRows(rows: seq<TaskRow>): seq<TaskRow> {
    seq(|rows|, i requires 0 <= i < |rows| => Plain(rows[i]))
  }

  ghost function Indexes(entries: seq<Entry>): seq<nat> {
    seq(|entries|, k requires 0 <= k < |entries| => entries[k].index)
  }

  lemma IndexesShown(entries: seq<Entry>)
    ensures Elements(Indexes(entries)) == Shown(entries)
    ensures ShownOnce(entries) ==> Distinct(Indexes(entries))
  {
    var order := Indexes(entries);
    forall k | k in Shown(entries)
      ensures k in order
    {
      var i :| 0 <= i < |entries| && entries[i].index == k;
      assert order[i] == k;
    }
    forall k | k in order
      ensures k in Shown(entries)
    {
      var i :| 0 <= i < |order| && order[i] == k;
      assert entries[i].index == k;
    }
  }

  lemma RenderPicks(rows: seq<TaskRow>, entries: seq<Entry>)
    requires forall k :: 0 <= k < |entries| ==> entries[k].index < |rows|
    ensures Within(Indexes(entries), |rows|)
    ensures PlainRows(Render(rows, entries)) == Pick(PlainRows(rows), Indexes(entries))
  {
  }

  /** Showing every position once, at whatever depths, permutes the rows. */
  lemma RenderPermutes(rows: seq<TaskRow>, entries: seq<Entry>)
    requires forall k :: 0 <= k < |entries| ==> entries[k].index < |rows|
    requires ShownOnce(entries) && Shown(entries) == Positions(|rows|)
    ensures multiset(PlainRows(Render(rows, entries))) == multiset(PlainRows(rows))
  {
    IndexesShown(entries);
    RenderPicks(rows, entries);
    PickPermutes(PlainRows(rows), Indexes(entries));
  }

  /** What the user chose to see. */
  datatype GroupView = GroupView(
    subtasks: SubtaskView, mode: GroupMode, statusOrder: map<string, int>, collapsed: set<string>)
  {
    /** Without grouping, and with subtasks listed separately, rows keep their order. */
    predicate Arranges() {
      mode != Ungrouped || subtasks.display != Separate || subtasks.overrides != map[]
    }
    /** Groups come in the order of their headings, or of their priorities. */
    function GroupingKey(): TaskGroup -> SortKey {
      (g: TaskGroup) => GroupingOrder(mode, g)
    }

    function StatusKey(): TaskGroup -> SortKey {
      (g: TaskGroup) => StatusOrder(statusOrder, g)
    }

    function StateKey(key: string): string {
      match mode
      case Ungrouped => ""
      case ByStatus => if key == "" then "" else "status:" + key
      case ByAssignee => if key == "" then "" else "assignee:" + key
      case ByPriority => if key == "" then "" else "priority:" + key
    }
  }

  ghost function ArrangedRows(view: SubtaskView, rows: seq<TaskRow>, all: map<TaskRef, Task>): seq<TaskRow> {
    var entries := Arrange(view, rows, all).entries;
    ArrangeShowsOnce(view, rows, all);
    InRange(entries, |rows|);
    Render(rows, entries)
  }

  lemma InRange(entries: seq<Entry>, n: nat)
    requires Shown(entries) <= Positions(n)
    ensures forall k :: 0 <= k < |entries| ==> entries[k].index < n
  {
    forall k | 0 <= k < |entries|
      ensures entries[k].index < n
    {
      assert entries[k].index in Shown(entries);
    }
  }

  ghost function GroupKeysOf(view: GroupView, rows: seq<TaskRow>, all: map<TaskRef, Task>): (keys: seq<string>)
    ensures |keys| == |rows|
  {
    if view.mode == Ungrouped then seq(|rows|, i => "") else KeysOf(rows, view.mode, all)
  }

  ghost function GroupHeadingsOf(view: GroupView, rows: seq<TaskRow>, all: map<TaskRef, Task>): (headings: seq<string>)
    ensures |headings| == |rows|
  {
    if view.mode == Ungrouped then seq(|rows|, i => "") else HeadingsOf(rows, view.mode, all)
  }

  /** The groups carry the headings of their first rows, and their keys are the headings without case and space. */
  ghost predicate WellHeaded(groups: seq<TaskGroup>, view: GroupView, rows: seq<TaskRow>, all: map<TaskRef, Task>) {
    && Headed(groups, GroupKeysOf(view, rows, all), GroupHeadingsOf(view, rows, all))
    && (view.mode != Ungrouped ==> forall g :: 0 <= g < |groups| ==> groups[g].key == Normalize(groups[g].heading))
  }

  /** Groups stand in the order of the mode; groups the mode ranks alike stand in the order of their first rows. */
  ghost predicate GroupsInOrder(groups: seq<TaskGroup>, view: GroupView, rows: seq<TaskRow>, all: map<TaskRef, Task>) {
    view.mode != Ungrouped ==>
      StablyInOrder(view.GroupingKey(), Appearance(GroupKeysOf(view, rows, all)), groups)
  }

  lemma HeadedWell(groups: seq<TaskGroup>, view: GroupView, rows: seq<TaskRow>, all: map<TaskRef, Task>)
    requires Headed(groups, GroupKeysOf(view, rows, all), GroupHeadingsOf(view, rows, all))
    ensures WellHeaded(groups, view, rows, all)
  {
    if view.mode != Ungrouped {
      forall g | 0 <= g < |groups|
        ensures groups[g].key == Normalize(groups[g].heading)
      {
        KeysNormal(rows, view.mode, all, First(KeysOf(rows, view.mode, all), groups[g].key));
      }
    }
  }

  lemma SameHeadsKeep(before: seq<TaskGroup>, after: seq<TaskGroup>, view: GroupView, rows: seq<TaskRow>,
                      all: map<TaskRef, Task>)
    requires SameHeads(before, after)
    ensures WellHeaded(before, view, rows, all) ==> WellHeaded(after, view, rows, all)
    ensures GroupsInOrder(before, view, rows, all) ==> GroupsInOrder(after, view, rows, all)
    ensures StrictlyInOrder(view.StatusKey(), before) ==> StrictlyInOrder(view.StatusKey(), after)
  {
  }

  ghost predicate StrictlyInOrder(key: TaskGroup -> SortKey, groups: seq<TaskGroup>) {
    forall i, j :: 0 <= i < j < |groups| ==> Before(key(groups[i]), key(groups[j]))
  }

  ghost function Content(view: GroupView, rows: seq<TaskRow>, all: map<TaskRef, Task>): map<string, seq<TaskRow>> {
    var gathered := Gathered(rows, GroupKeysOf(view, rows, all));
    if view.Arranges() then map key | key in gathered :: ArrangedRows(view.subtasks, gathered[key], all) else gathered
  }

  method SortedGroups(view: GroupView, rows: seq<TaskRow>, all: map<TaskRef, Task>) returns (groups: seq<TaskGroup>)
    requires view.mode != Ungrouped
    ensures Holds(groups, Gathered(rows, KeysOf(rows, view.mode, all)))
    ensures multiset(Concat(groups)) == multiset(rows)
    ensures WellHeaded(groups, view, rows, all) && GroupsInOrder(groups, view, rows, all)
  {
    var found := GatherTaskRows(rows, view.mode, all);
    ghost var keys := KeysOf(rows, view.mode, all);
    PartitionHolds(found, rows, keys);
    PartitionPermutes(found, rows, keys);
    var key := view.GroupingKey();
    StableSortSorts(key, found);
    StableSortKeepsTies(key, Appearance(keys), found);
    ConcatSort(key, found);
    groups := StableSort(key, found);
    PermutedHolds(found, groups, Gathered(rows, keys));
    PermutedHeaded(found, groups, keys, HeadingsOf(rows, view.mode, all));
    HeadedWell(groups, view, rows, all);
  }

  /** The rows in groups: one for each key, sorted stably by heading or priority. */
  method GroupTaskRows(view: GroupView, rows: seq<TaskRow>, all: map<TaskRef, Task>) returns (groups: seq<TaskGroup>)
    ensures Holds(groups, Gathered(rows, GroupKeysOf(view, rows, all)))
    ensures multiset(Concat(groups)) == multiset(rows)
    ensures WellHeaded(groups, view, rows, all) && GroupsInOrder(groups, view, rows, all)
  {
    if rows == [] {
      groups := [];
    } else if view.mode == Ungrouped {
      groups := SingleGroup(rows);
    } else {
      groups := SortedGroups(view, rows, all);
    }
  }

  // ----- every stage of the projection -----

  ghost function Arranged(view: GroupView, group: TaskGroup, all: map<TaskRef, Task>): TaskGroup {
    group.(rows := ArrangedRows(view.subtasks, group.rows, all))
  }

  method ArrangeGroup(view: GroupView, group: TaskGroup, all: map<TaskRef, Task>) returns (arranged: TaskGroup)
    ensures arranged == Arranged(view, group, all)
  {
    var ordered := ArrangeTaskHierarchy(view.subtasks, group.rows, all);
    arranged := group.(rows := ordered);
  }

  method ArrangeGroups(view: GroupView, groups: seq<TaskGroup>, rows: seq<TaskRow>, all: map<TaskRef, Task>)
      returns (arranged: seq<TaskGroup>)
    requires Holds(groups, Gathered(rows, GroupKeysOf(view, rows, all)))
    ensures Holds(arranged, Content(view, rows, all))
    ensures |arranged| == |groups| && forall g :: 0 <= g < |groups| ==>
              arranged[g] == if view.Arranges() then Arranged(view, groups[g], all) else groups[g]
  {
    arranged := groups;
    if view.Arranges() {
      for index := 0 to |groups|
        invariant |arranged| == |groups|
        invariant forall g :: 0 <= g < |groups| ==>
                    arranged[g] == if g < index then Arranged(view, groups[g], all) else groups[g]
      {
        var group := ArrangeGroup(view, groups[index], all);
        arranged := arranged[index := group];
      }
    }
    ArrangedHolds(view, groups, arranged, rows, all);
  }

  lemma ArrangedHolds(view: GroupView, groups: seq<TaskGroup>, arranged: seq<TaskGroup>, rows: seq<TaskRow>,
                      all: map<TaskRef, Task>)
    requires Holds(groups, Gathered(rows, GroupKeysOf(view, rows, all)))
    requires |arranged| == |groups| && forall g :: 0 <= g < |groups| ==>
               arranged[g] == if view.Arranges() then Arranged(view, groups[g], all) else groups[g]
    ensures Holds(arranged, Content(view, rows, all))
  {
    SameKeys(groups, arranged);
  }

  function Marked(view: GroupView, group: TaskGroup): TaskGroup {
    group.(collapsed := view.StateKey(group.key) in view.collapsed)
  }

  method MarkCollapsed(view: GroupView, groups: seq<TaskGroup>) returns (marked: seq<TaskGroup>)
    ensures |marked| == |groups| && forall g :: 0 <= g < |groups| ==>
              marked[g] == Marked(view, groups[g])
  {
    marked := groups;
    for index := 0 to |groups|
      invariant |marked| == |groups|
      invariant forall g :: 0 <= g < |groups| ==>
                  marked[g] == if g < index then Marked(view, groups[g]) else groups[g]
    {
      marked := marked[index := Marked(view, groups[index])];
    }
  }

  /** The rows of every visible group, by key. */
  ghost function VisibleContent(view: GroupView, rows: seq<TaskRow>, all: map<TaskRef, Task>)
      : map<string, seq<TaskRow>> {
    WithoutEmpty(Content(view, rows, all))
  }

  /** Every visible group with its heading, its rows and whether it is collapsed, in the order of the mode. */
  ghost predicate Displayed(groups: seq<TaskGroup>, view: GroupView, rows: seq<TaskRow>, all: map<TaskRef, Task>) {
    && Holds(groups, VisibleContent(view, rows, all))
    && WellHeaded(groups, view, rows, all)
    && (forall g :: 0 <= g < |groups| ==> groups[g].collapsed == (view.StateKey(groups[g].key) in view.collapsed))
    && if view.mode == ByStatus then StrictlyInOrder(view.StatusKey(), groups)
       else GroupsInOrder(groups, view, rows, all)
  }

  method VisibleTaskGroups(view: GroupView, rows: seq<TaskRow>, all: map<TaskRef, Task>)
      returns (groups: seq<TaskGroup>)
    requires forall i :: 0 <= i < |rows| ==> rows[i].hierarchyDepth == 0
    ensures Displayed(groups, view, rows, all)
    ensures NothingCollapsed(view.subtasks) ==> multiset(PlainRows(Concat(groups))) == multiset(rows)
    ensures NothingCollapsed(view.subtasks) && view.collapsed == {} ==>
              multiset(PlainRows(Flatten(groups))) == multiset(rows)
  {
    hide Holds, WellHeaded, GroupsInOrder, VisibleContent, StrictlyInOrder;
    var visible := ShownGroups(view, rows, all);
    if view.mode == ByStatus {
      visible := SortStatuses(view, visible, rows, all);
    }
    groups := MarkCollapsed(view, visible);
    MarkedHolds(visible, groups, VisibleContent(view, rows, all));
    SameHeadsKeep(visible, groups, view, rows, all);
    if view.collapsed == {} {
      FlattenConcat(groups);
    }
  }

  /** Groups, sorts and arranges the rows, and drops the groups left without rows. */
  method ShownGroups(view: GroupView, rows: seq<TaskRow>, all: map<TaskRef, Task>) returns (visible: seq<TaskGroup>)
    requires forall i :: 0 <= i < |rows| ==> rows[i].hierarchyDepth == 0
    ensures Holds(visible, VisibleContent(view, rows, all))
    ensures WellHeaded(visible, view, rows, all) && GroupsInOrder(visible, view, rows, all)
    ensures NothingCollapsed(view.subtasks) ==> multiset(PlainRows(Concat(visible))) == multiset(rows)
  {
    var unsorted := GroupTaskRows(view, rows, all);
    var arranged := ArrangeGroups(view, unsorted, rows, all);
    ArrangeKeeps(view, unsorted, arranged, rows, all);
    SameHeadsKeep(unsorted, arranged, view, rows, all);
    visible := DropEmpty(arranged);
    NonEmptyHolds(arranged, Content(view, rows, all));
    NonEmptyInOrder(arranged, view, rows, all);
  }

  /** Configured statuses first, in their order, then by heading; no two groups tie. */
  method SortStatuses(view: GroupView, groups: seq<TaskGroup>, ghost rows: seq<TaskRow>, ghost all: map<TaskRef, Task>)
      returns (sorted: seq<TaskGroup>)
    requires Holds(groups, VisibleContent(view, rows, all)) && WellHeaded(groups, view, rows, all)
    requires view.mode == ByStatus
    ensures Holds(sorted, VisibleContent(view, rows, all)) && WellHeaded(sorted, view, rows, all)
    ensures multiset(PlainRows(Concat(sorted))) == multiset(PlainRows(Concat(groups)))
    ensures StrictlyInOrder(view.StatusKey(), sorted)
  {
    var order := view.StatusKey();
    StableSortSorts(order, groups);
    ConcatSort(order, groups);
    sorted := StableSort(order, groups);
    PermutedHolds(groups, sorted, VisibleContent(view, rows, all));
    PermutedHeaded(groups, sorted, GroupKeysOf(view, rows, all), GroupHeadingsOf(view, rows, all));
    HeadedWell(sorted, view, rows, all);
    PlainPermutes(Concat(sorted), Concat(groups));
    NoTies(view, sorted);
  }

  lemma NoTies(view: GroupView, groups: seq<TaskGroup>)
    requires DistinctKeys(groups) && InOrder(view.StatusKey(), groups)
    requires forall g :: 0 <= g < |groups| ==> groups[g].key == Normalize(groups[g].heading)
    ensures StrictlyInOrder(view.StatusKey(), groups)
  {
    forall i, j | 0 <= i < j < |groups|
      ensures Before(view.StatusKey()(groups[i]), view.StatusKey()(groups[j]))
    {
      LessTotal(groups[i].key, groups[j].key);
      assert !Before(view.StatusKey()(groups[j]), view.StatusKey()(groups[i]));
    }
  }

  lemma NonEmptyInOrder(arranged: seq<TaskGroup>, view: GroupView, rows: seq<TaskRow>, all: map<TaskRef, Task>)
    requires WellHeaded(arranged, view, rows, all) && GroupsInOrder(arranged, view, rows, all)
    ensures WellHeaded(NonEmpty(arranged), view, rows, all) && GroupsInOrder(NonEmpty(arranged), view, rows, all)
  {
    KeptMembers(arranged, |arranged|);
    if view.mode != Ungrouped {
      PickedInOrder(view.GroupingKey(), Appearance(GroupKeysOf(view, rows, all)), arranged, Kept(arranged, |arranged|));
    }
  }

  lemma PlainPermutes(a: seq<TaskRow>, b: seq<TaskRow>)
    requires multiset(a) == multiset(b)
    ensures multiset(PlainRows(a)) == multiset(PlainRows(b))
  {
    MapPermutes(Plain, a, b);
    assert PlainRows(a) == Map(Plain, a) && PlainRows(b) == Map(Plain, b);
  }

  lemma ArrangedPermutes(view: SubtaskView, rows: seq<TaskRow>, all: map<TaskRef, Task>)
    requires NothingCollapsed(view)
    ensures multiset(PlainRows(ArrangedRows(view, rows, all))) == multiset(PlainRows(rows))
  {
    var entries := Arrange(view, rows, all).entries;
    ArrangeShowsOnce(view, rows, all);
    InRange(entries, |rows|);
    RenderPermutes(rows, entries);
  }

  lemma {:induction false} ConcatKeeps(before: seq<TaskGroup>, after: seq<TaskGroup>)
    requires |before| == |after|
    requires forall g :: 0 <= g < |before| ==> multiset(PlainRows(after[g].rows)) == multiset(PlainRows(before[g].rows))
    ensures multiset(PlainRows(Concat(after))) == multiset(PlainRows(Concat(before)))
  {
    if before != [] {
      var last := |before| - 1;
      ConcatKeeps(before[..last], after[..last]);
      assert PlainRows(Concat(before)) == PlainRows(Concat(before[..last])) + PlainRows(before[last].rows);
      assert PlainRows(Concat(after)) == PlainRows(Concat(after[..last])) + PlainRows(after[last].rows);
    }
  }

  lemma ArrangeKeeps(view: GroupView, unsorted: seq<TaskGroup>, arranged: seq<TaskGroup>, rows: seq<TaskRow>,
                     all: map<TaskRef, Task>)
    requires multiset(Concat(unsorted)) == multiset(rows)
    requires forall i :: 0 <= i < |rows| ==> rows[i].hierarchyDepth == 0
    requires |arranged| == |unsorted| && forall g :: 0 <= g < |unsorted| ==>
               arranged[g].rows == if view.Arranges() then ArrangedRows(view.subtasks, unsorted[g].rows, all)
                                   else unsorted[g].rows
    ensures NothingCollapsed(view.subtasks) ==> multiset(PlainRows(Concat(arranged))) == multiset(rows)
  {
    if NothingCollapsed(view.subtasks) {
      forall g | 0 <= g < |unsorted|
        ensures multiset(PlainRows(arranged[g].rows)) == multiset(PlainRows(unsorted[g].rows))
      {
        if view.Arranges() {
          ArrangedPermutes(view.subtasks, unsorted[g].rows, all);
        }
      }
      ConcatKeeps(unsorted, arranged);
      PlainPermutes(Concat(unsorted), rows);
      assert PlainRows(rows) == rows;
    }
  }

  // ----- within a group the arrangement still agrees with the per-row definition -----

  lemma {:induction false} SelectRows(rows: seq<TaskRow>, keys: seq<string>, key: string, all: map<TaskRef, Task>)
    requires |rows| == |keys| && RowsOf(rows, all) && DistinctRows(rows)
    ensures RowsOf(Select(rows, keys, key), all) && DistinctRows(Select(rows, keys, key))
    ensures forall i :: 0 <= i < |Select(rows, keys, key)| ==> Select(rows, keys, key)[i] in rows
  {
    if rows != [] {
      var last := |rows| - 1;
      SelectRows(rows[..last], keys[..last], key, all);
      var before := Select(rows[..last], keys[..last], key);
      forall i | 0 <= i < |before|
        ensures before[i].Ref() != rows[last].Ref()
      {
        var j :| 0 <= j < last && rows[..last][j] == before[i];
      }
    }
  }

  lemma GroupAgrees(view: GroupView, rows: seq<TaskRow>, all: map<TaskRef, Task>, key: string)
    requires RowsOf(rows, all) && DistinctRows(rows) && Acyclic(ParentLinks(all))
    ensures var its := Select(rows, GroupKeysOf(view, rows, all), key);
            && AgreesWithRows(view.subtasks, its, all, Arrange(view.subtasks, its, all).entries)
            && Preorder(InView(its), Arrange(view.subtasks, its, all).entries)
  {
    var keys := GroupKeysOf(view, rows, all);
    SelectRows(rows, keys, key, all);
    ArrangementAgrees(view.subtasks, Select(rows, keys, key), all);
  }
}
