/**
  What the displayed groups look like: by what rows are grouped, and in which order the groups stand.
 */
module GroupLaws {
  import opened Common
  import opened KeyedGroups
  import opened ParentGraph
  import opened Sorting
  import opened Text
  import opened TaskRows
  import opened TaskHierarchy
  import opened HierarchyAgreement
  import opened TaskGroups

  // ----- what decides a row's group -----

  /** Walking up ends at a task without a stored parent. */
  lemma {:induction false} UpwardEnds(all: map<TaskRef, Task>, rank: map<TaskRef, nat>, ref: TaskRef, steps: nat)
    requires KeyedByRef(all) && Ranked(rank, all) && ref in all && |Lineage(all, rank, ref)| <= steps + 1
    ensures var top := Upward(all, ref.providerID, all[ref], steps);
            && top.Ref() in all && all[top.Ref()] == top && Descends(ParentLinks(all), ref, top.Ref())
            && (top.HasParent() ==> top.ParentRef() !in all)
    decreases rank[ref]
  {
    var links := ParentLinks(all);
    DescendsSelf(links, ref);
    if all[ref].HasParent() && all[ref].ParentRef() in all {
      var parent := all[ref].ParentRef();
      UpwardEnds(all, rank, parent, steps - 1);
      DescendsParent(links, ref);
      DescendsTransitive(links, ref, parent, Upward(all, ref.providerID, all[ref], steps).Ref());
    }
  }

  /** Two tops of one tree are the same task. */
  lemma OneTop(all: map<TaskRef, Task>, x: TaskRef, a: TaskRef, b: TaskRef)
    requires Descends(ParentLinks(all), x, a) && Descends(ParentLinks(all), x, b) && a in all && b in all
    requires all[a].HasParent() ==> all[a].ParentRef() !in all
    requires all[b].HasParent() ==> all[b].ParentRef() !in all
    ensures a == b
  {
    var links := ParentLinks(all);
    Comparable(links, x, a, b);
    if a != b {
      var low, high := if Descends(links, a, b) then a else b, if Descends(links, a, b) then b else a;
      DescendsFromParent(links, low, high);
      var n: nat :| Up(links, links[low], n) == Some(high);
      UpStored(all, links[low], n, high);
      assert false;
    }
  }

  function OrElse(text: string, blank: string): string { if Trim(text) == "" then blank else Trim(text) }

  /** Without cycles, the group of a row is named after the field of the task at the top of its tree. */
  lemma NamedByTop(row: TaskRow, top: Task, all: map<TaskRef, Task>)
    requires KeyedByRef(all) && Acyclic(ParentLinks(all)) && StoredRow(row, all)
    requires top.Ref() in all && all[top.Ref()] == top && Descends(ParentLinks(all), row.Ref(), top.Ref())
    requires top.HasParent() ==> top.ParentRef() !in all
    ensures HeadingOf(row, ByStatus, all) == OrElse(top.status, "Unspecified")
    ensures HeadingOf(row, ByAssignee, all) == OrElse(top.assignee, "Unassigned")
    ensures HeadingOf(row, ByPriority, all) ==
              if Normalize(Trim(top.priority)) == "none" then "None" else OrElse(top.priority, "None")
    ensures forall mode :: KeyOf(row, mode, all) == Normalize(HeadingOf(row, mode, all))
  {
    var rank := RankTasks(all);
    var line := Lineage(all, rank, row.Ref());
    Pigeonhole(line, all.Keys);
    UpwardEnds(all, rank, row.Ref(), |all| + 1);
    OneTop(all, row.Ref(), GroupingTask(row, all).Ref(), top.Ref());
  }

  // ----- the order of the groups -----

  lemma LowerKeepsSpace(c: char)
    ensures IsSpace(LowerChar(c)) <==> IsSpace(c)
    ensures LowerChar(LowerChar(c)) == LowerChar(c)
  {
  }

  lemma {:induction false} TrimTrims(s: string)
    ensures Trimmed(Trim(s))
  {
    TrimLeftTrims(s);
    TrimRightTrims(TrimLeft(s));
  }

  lemma {:induction false} TrimLeftTrims(s: string)
    ensures TrimLeft(s) != "" ==> !IsSpace(TrimLeft(s)[0])
  {
    if s != "" && IsSpace(s[0]) {
      TrimLeftTrims(s[1..]);
    }
  }

  lemma {:induction false} TrimRightTrims(s: string)
    ensures TrimRight(s) != "" ==> !IsSpace(TrimRight(s)[|TrimRight(s)| - 1]) && TrimRight(s)[0] == s[0]
  {
    if s != "" && IsSpace(s[|s| - 1]) {
      TrimRightTrims(s[..|s| - 1]);
    }
  }

  lemma NormalizeAgain(s: string)
    ensures Normalize(Normalize(s)) == Normalize(s)
  {
    var t, n := Trim(s), Normalize(s);
    TrimTrims(s);
    forall i | 0 <= i < |n|
      ensures IsSpace(n[i]) <==> IsSpace(t[i])
      ensures LowerChar(n[i]) == n[i]
    {
      LowerKeepsSpace(t[i]);
    }
    TrimmedStays(n);
    assert Lower(n) == n;
  }

  const URGENT := {"urgent", "critical", "p0"}
  const HIGH := {"high", "p1"}
  const NORMAL := {"normal", "medium", "p2"}
  const LOW := {"low", "p3"}

  lemma RankOf(p: string)
    requires Normalize(p) == p
    ensures PriorityRank(p) <= 4
    ensures PriorityRank(p) >= 4 <==> p in URGENT
    ensures PriorityRank(p) >= 3 <==> p in URGENT + HIGH
    ensures PriorityRank(p) >= 2 <==> p in URGENT + HIGH + NORMAL
    ensures PriorityRank(p) >= 1 <==> p in URGENT + HIGH + NORMAL + LOW
  {
    hide Normalize;
  }

  /** Urgent groups come first, then high, normal and low ones, then all others. */
  lemma PrioritiesDescend(groups: seq<TaskGroup>, view: GroupView, rows: seq<TaskRow>, all: map<TaskRef, Task>, i: nat,
                          j: nat)
    requires Displayed(groups, view, rows, all) && view.mode == ByPriority && i < j < |groups|
    ensures groups[j].key in URGENT ==> groups[i].key in URGENT
    ensures groups[j].key in HIGH ==> groups[i].key in URGENT + HIGH
    ensures groups[j].key in NORMAL ==> groups[i].key in URGENT + HIGH + NORMAL
    ensures groups[j].key in LOW ==> groups[i].key in URGENT + HIGH + NORMAL + LOW
  {
    NormalizeAgain(groups[i].heading);
    NormalizeAgain(groups[j].heading);
    hide PriorityRank, Normalize;
    RankOf(groups[i].key);
    RankOf(groups[j].key);
    assert !Before(view.GroupingKey()(groups[j]), view.GroupingKey()(groups[i]));
  }

  /** Assignees stand in the order of their names. */
  lemma AssigneesAscend(groups: seq<TaskGroup>, view: GroupView, rows: seq<TaskRow>, all: map<TaskRef, Task>, i: nat,
                        j: nat)
    requires Displayed(groups, view, rows, all) && view.mode == ByAssignee && i < j < |groups|
    ensures Less(groups[i].key, groups[j].key)
  {
    assert !Before(view.GroupingKey()(groups[j]), view.GroupingKey()(groups[i]));
    LessTotal(groups[i].key, groups[j].key);
  }

  /** Configured statuses stand before all others and in their configured order, the rest by name. */
  lemma StatusesInOrder(groups: seq<TaskGroup>, view: GroupView, rows: seq<TaskRow>, all: map<TaskRef, Task>, i: nat,
                        j: nat)
    requires Displayed(groups, view, rows, all) && view.mode == ByStatus && i < j < |groups|
    ensures var a, b, order := groups[i].key, groups[j].key, view.statusOrder;
            if b in order then a in order && (order[a] < order[b] || (order[a] == order[b] && Less(a, b)))
            else a in order || Less(a, b)
  {
    assert Before(view.StatusKey()(groups[i]), view.StatusKey()(groups[j]));
  }

  // ----- what the groups show -----

  /** Rows are rearranged as soon as the view groups them or displays subtasks in any other way than apart. */
  lemma GroupsArranged(groups: seq<TaskGroup>, view: GroupView, rows: seq<TaskRow>, all: map<TaskRef, Task>, g: nat)
    requires Displayed(groups, view, rows, all) && g < |groups|
    ensures var its := Select(rows, GroupKeysOf(view, rows, all), groups[g].key);
            groups[g].rows == if view.mode == Ungrouped && view.subtasks == SubtaskView(Separate, map[]) then its
                              else ArrangedRows(view.subtasks, its, all)
  {
  }

  /** Collapsing is remembered by the mode and the key of the group. */
  lemma CollapsedByName(groups: seq<TaskGroup>, view: GroupView, rows: seq<TaskRow>, all: map<TaskRef, Task>, g: nat)
    requires Displayed(groups, view, rows, all) && g < |groups| && groups[g].key != ""
    ensures view.mode == ByStatus ==> (groups[g].collapsed <==> "status:" + groups[g].key in view.collapsed)
    ensures view.mode == ByAssignee ==> (groups[g].collapsed <==> "assignee:" + groups[g].key in view.collapsed)
    ensures view.mode == ByPriority ==> (groups[g].collapsed <==> "priority:" + groups[g].key in view.collapsed)
  {
  }
}
