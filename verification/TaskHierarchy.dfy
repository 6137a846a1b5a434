/**
  Arranging task rows as a hierarchy: parents before their subtasks, subtasks of
  collapsed parents left out, and every row annotated with its depth.
 */
module TaskHierarchy {
  import opened Common
  import opened TaskRows

  // ----- the per-row definition of depth and visibility -----

  /** The ancestors of a task, nearest first, up to a missing task or a repetition. */
  ghost function AncestorsAfter(all: map<TaskRef, Task>, provider: string, parentID: Option<string>,
                                seen: seq<TaskRef>): seq<TaskRef>
    requires forall ref :: ref in seen ==> ref in all
    decreases |all.Keys - Elements(seen)|
  {
    if parentID.None? || parentID.value == "" then seen
    else
      var parent := TaskRef(provider, parentID.value);
      if parent in seen then seen
      else if parent !in all then seen + [parent]
      else
        SeeMore(all, seen, parent);
        AncestorsAfter(all, provider, all[parent].parentTaskID, seen + [parent])
  }

  lemma SubsetStrict<T>(a: set<T>, b: set<T>)
    requires a < b
    ensures |a| < |b|
  {
    SubsetCardinality(a, b);
    assert b == a + (b - a);
  }

  ghost function Ancestors(row: TaskRow, all: map<TaskRef, Task>): seq<TaskRef> {
    AncestorsAfter(all, row.providerID, row.task.parentTaskID, [])
  }

  /** The depth under a chain of ancestors given nearest first; None is invisible. */
  ghost function DepthUnder(view: SubtaskView, ancestors: seq<TaskRef>): Option<nat> {
    if ancestors == [] then Some(0)
    else
      match DepthUnder(view, ancestors[1..])
      case None => None
      case Some(depth) =>
        match view.ModeFor(ancestors[0])
        case Collapsed => None
        case Expanded => Some(depth + 1)
        case Separate => Some(0)
  }

  ghost function RowDepth(view: SubtaskView, row: TaskRow, all: map<TaskRef, Task>): Option<nat> {
    DepthUnder(view, Ancestors(row, all))
  }

  ghost function Named(provider: string, parentID: Option<string>): Option<TaskRef> {
    if parentID.None? || parentID.value == "" then None else Some(TaskRef(provider, parentID.value))
  }

  /** The task n + 1 steps up the parent links; a task that is not stored ends the way. */
  ghost function Above(all: map<TaskRef, Task>, provider: string, parentID: Option<string>, n: nat): Option<TaskRef> {
    if n == 0 then Named(provider, parentID)
    else
      match Above(all, provider, parentID, n - 1)
      case None => None
      case Some(ref) => if ref in all then Named(provider, all[ref].parentTaskID) else None
  }

  ghost function AboveRow(all: map<TaskRef, Task>, row: TaskRow, n: nat): Option<TaskRef> {
    Above(all, row.providerID, row.task.parentTaskID, n)
  }

  lemma SeeMore(all: map<TaskRef, Task>, seen: seq<TaskRef>, parent: TaskRef)
    requires parent in all && parent !in seen
    ensures |all.Keys - Elements(seen + [parent])| < |all.Keys - Elements(seen)|
  {
    assert parent in all.Keys - Elements(seen) && parent in Elements(seen + [parent]);
    SubsetStrict(all.Keys - Elements(seen + [parent]), all.Keys - Elements(seen));
  }

  /** The ancestors are the way up, as far as it does not repeat itself. */
  lemma {:induction false} AncestorsGoUp(all: map<TaskRef, Task>, provider: string, start: Option<string>,
                                         parentID: Option<string>, seen: seq<TaskRef>)
    requires forall ref :: ref in seen ==> ref in all
    requires forall k :: 0 <= k < |seen| ==> Above(all, provider, start, k) == Some(seen[k])
    requires Above(all, provider, start, |seen|) == Named(provider, parentID)
    ensures var ancestors := AncestorsAfter(all, provider, parentID, seen);
            && (forall k :: 0 <= k < |ancestors| ==> Above(all, provider, start, k) == Some(ancestors[k]))
            && var next := Above(all, provider, start, |ancestors|); next.None? || next.value in ancestors
    decreases |all.Keys - Elements(seen)|
  {
    hide Elements;
    var next := Named(provider, parentID);
    if next.Some? && next.value !in seen {
      var more := seen + [next.value];
      assert forall k :: 0 <= k < |more| ==> Above(all, provider, start, k) == Some(more[k]);
      if next.value in all {
        SeeMore(all, seen, next.value);
        AncestorsGoUp(all, provider, start, all[next.value].parentTaskID, more);
      } else {
        assert Above(all, provider, start, |more|).None?;
      }
    }
  }

  /** A way that comes back to itself meets nothing new. */
  lemma {:induction false} OnlyAncestorsAbove(all: map<TaskRef, Task>, row: TaskRow, n: nat)
    requires AboveRow(all, row, n).Some?
    ensures AboveRow(all, row, n).value in Ancestors(row, all)
  {
    var ancestors := Ancestors(row, all);
    AncestorsGoUp(all, row.providerID, row.task.parentTaskID, row.task.parentTaskID, []);
    if n >= |ancestors| && n > 0 {
      OnlyAncestorsAbove(all, row, n - 1);
      var k :| 0 <= k < |ancestors| && ancestors[k] == AboveRow(all, row, n - 1).value;
      assert AboveRow(all, row, k) == AboveRow(all, row, n - 1);
      assert AboveRow(all, row, k + 1) == AboveRow(all, row, n);
    }
  }

  lemma {:induction false} DepthIsPrefix(view: SubtaskView, ancestors: seq<TaskRef>)
    ensures DepthUnder(view, ancestors).None? <==>
              exists k :: 0 <= k < |ancestors| && view.ModeFor(ancestors[k]) == Collapsed
    ensures DepthUnder(view, ancestors).Some? ==>
              var depth := DepthUnder(view, ancestors).value;
              && depth <= |ancestors| && (forall k :: 0 <= k < depth ==> view.ModeFor(ancestors[k]) == Expanded)
              && (depth < |ancestors| ==> view.ModeFor(ancestors[depth]) == Separate)
  {
    if ancestors != [] {
      DepthIsPrefix(view, ancestors[1..]);
      assert forall k :: 0 < k < |ancestors| ==> ancestors[k] == ancestors[1..][k - 1];
    }
  }

  /**
    On every graph of parents, a row is visible exactly when nothing on its way up is collapsed, and its
    depth counts the expanded tasks up to the first one shown apart, the end of the way or its repetition.
   */
  lemma DepthOnTheWay(view: SubtaskView, row: TaskRow, all: map<TaskRef, Task>)
    ensures RowDepth(view, row, all).Some? <==>
              forall n :: AboveRow(all, row, n).Some? ==> view.ModeFor(AboveRow(all, row, n).value) != Collapsed
    ensures RowDepth(view, row, all).Some? ==> CountsExpanded(view, row, all, RowDepth(view, row, all).value)
  {
    var ancestors := Ancestors(row, all);
    AncestorsGoUp(all, row.providerID, row.task.parentTaskID, row.task.parentTaskID, []);
    DepthIsPrefix(view, ancestors);
    forall n | AboveRow(all, row, n).Some?
      ensures AboveRow(all, row, n).value in ancestors
    {
      OnlyAncestorsAbove(all, row, n);
    }
    forall k | 0 <= k < |ancestors|
      ensures AboveRow(all, row, k) == Some(ancestors[k])
    {
    }
    var next := AboveRow(all, row, |ancestors|);
    if next.Some? {
      var k :| 0 <= k < |ancestors| && ancestors[k] == next.value;
      assert AboveRow(all, row, k) == next;
    }
  }

  ghost predicate CountsExpanded(view: SubtaskView, row: TaskRow, all: map<TaskRef, Task>, depth: nat) {
    && (forall n :: 0 <= n < depth ==>
          AboveRow(all, row, n).Some? && view.ModeFor(AboveRow(all, row, n).value) == Expanded)
    && var end := AboveRow(all, row, depth);
       || end.None? || view.ModeFor(end.value) == Separate
       || exists n :: 0 <= n < depth && AboveRow(all, row, n) == end
  }

  /** A parent that is not stored still decides over its subtasks. */
  lemma MissingParent(view: SubtaskView, row: TaskRow, all: map<TaskRef, Task>)
    requires row.task.HasParent() && row.providerID == row.task.providerID && row.task.ParentRef() !in all
    ensures var mode := view.ModeFor(row.task.ParentRef());
            RowDepth(view, row, all) == if mode == Collapsed then None else Some(if mode == Expanded then 1 else 0)
  {
    var ancestors := Ancestors(row, all);
    assert ancestors == [row.task.ParentRef()];
    assert DepthUnder(view, ancestors[1..]) == Some(0);
  }

  method VisibleOrphanDepth(view: SubtaskView, row: TaskRow, all: map<TaskRef, Task>)
      returns (depth: nat, visible: bool)
    ensures RowDepth(view, row, all) == if visible then Some(depth) else None
    ensures visible <==>
              forall n :: AboveRow(all, row, n).Some? ==> view.ModeFor(AboveRow(all, row, n).value) != Collapsed
    ensures visible ==> CountsExpanded(view, row, all, depth)
    ensures row.task.HasParent() && row.providerID == row.task.providerID && row.task.ParentRef() !in all ==>
              var mode := view.ModeFor(row.task.ParentRef());
              (visible <==> mode != Collapsed) && (visible ==> depth == if mode == Expanded then 1 else 0)
  {
    DepthOnTheWay(view, row, all);
    if row.task.HasParent() && row.providerID == row.task.providerID && row.task.ParentRef() !in all {
      MissingParent(view, row, all);
    }
    var ancestors: seq<TaskRef> := [];
    var parentID := row.task.parentTaskID;
    var steps := 0;
    while parentID.Some? && parentID.value != "" && steps <= |all|
      invariant steps == |ancestors| <= |all|
      invariant Distinct(ancestors) && forall ref :: ref in ancestors ==> ref in all
      invariant AncestorsAfter(all, row.providerID, parentID, ancestors) == Ancestors(row, all)
      decreases |all| + 1 - steps
    {
      var parent := TaskRef(row.providerID, parentID.value);
      if parent in ancestors {
        break;
      }
      ancestors := ancestors + [parent];
      if parent !in all {
        break;
      }
      Pigeonhole(ancestors, all.Keys);
      assert |all.Keys| == |all|;
      parentID := all[parent].parentTaskID;
      steps := steps + 1;
    }
    assert ancestors == Ancestors(row, all);
    depth, visible := DepthBelow(view, ancestors);
  }

  method DepthBelow(view: SubtaskView, ancestors: seq<TaskRef>) returns (depth: nat, visible: bool)
    ensures DepthUnder(view, ancestors) == if visible then Some(depth) else None
  {
    depth := 0;
    var index := |ancestors|;
    while index > 0
      invariant 0 <= index <= |ancestors|
      invariant DepthUnder(view, ancestors[index..]) == Some(depth)
    {
      index := index - 1;
      assert ancestors[index..][1..] == ancestors[index + 1..];
      match view.ModeFor(ancestors[index])
      case Collapsed =>
        CollapsedHides(view, ancestors, index);
        return 0, false;
      case Expanded =>
        depth := depth + 1;
      case Separate =>
        depth := 0;
    }
    visible := true;
  }

  /** A collapsed ancestor anywhere in the chain hides the row. */
  lemma {:induction false} CollapsedHides(view: SubtaskView, ancestors: seq<TaskRef>, index: nat)
    requires index < |ancestors| && view.ModeFor(ancestors[index]) == Collapsed
    ensures DepthUnder(view, ancestors) == None
  {
    if index > 0 {
      CollapsedHides(view, ancestors[1..], index - 1);
    }
  }

  // ----- the traversal -----

  /** A shown row: its position in the input and its depth. */
  datatype Entry = Entry(index: nat, depth: nat)

  datatype Progress = Progress(entries: seq<Entry>, visited: set<nat>)

  function Lookup(children: map<TaskRef, seq<nat>>, parent: TaskRef): seq<nat> {
    if parent in children then children[parent] else []
  }

  /** The rows of a view and, per parent, the positions of its subtasks in input order. */
  datatype Forest = Forest(rows: seq<TaskRow>, children: map<TaskRef, seq<nat>>) {
    ghost predicate Valid() {
      forall ref :: ref in children ==> Within(children[ref], |rows|)
    }

    function ChildrenOf(index: nat): seq<nat>
      requires index < |rows|
    {
      Lookup(children, rows[index].Ref())
    }

    ghost function Unvisited(visited: set<nat>): nat {
      |Positions(|rows|) - visited|
    }
  }

  lemma VisitShrinks(forest: Forest, before: set<nat>, index: nat, after: set<nat>)
    requires index < |forest.rows| && index !in before && before + {index} <= after
    ensures forest.Unvisited(after) < forest.Unvisited(before)
  {
    var all := Positions(|forest.rows|);
    assert index in all - before && index !in all - after;
    SubsetStrict(all - after, all - before);
  }

  lemma VisitsShrink(forest: Forest, before: set<nat>, after: set<nat>)
    requires before <= after
    ensures forest.Unvisited(after) <= forest.Unvisited(before)
  {
    var all := Positions(|forest.rows|);
    SubsetCardinality(all - after, all - before);
  }

  ghost function Mark(forest: Forest, index: nat, visited: set<nat>): (after: set<nat>)
    requires forest.Valid() && index < |forest.rows|
    ensures visited + {index} <= after
    decreases forest.Unvisited(visited), 0
  {
    if index in visited then visited
    else
      VisitShrinks(forest, visited, index, visited + {index});
      MarkAll(forest, forest.ChildrenOf(index), visited + {index})
  }

  ghost function MarkAll(forest: Forest, kids: seq<nat>, visited: set<nat>): (after: set<nat>)
    requires forest.Valid() && Within(kids, |forest.rows|)
    ensures visited <= after
    ensures forall k :: k in kids ==> k in after
    decreases forest.Unvisited(visited), 1, |kids|
  {
    if kids == [] then visited
    else
      var first := Mark(forest, kids[0], visited);
      VisitsShrink(forest, visited, first);
      MarkAll(forest, kids[1..], first)
  }

  ghost function Append(view: SubtaskView, forest: Forest, index: nat, depth: nat, before: Progress): (after: Progress)
    requires forest.Valid() && index < |forest.rows|
    ensures before.visited + {index} <= after.visited
    decreases forest.Unvisited(before.visited), 0
  {
    if index in before.visited then before
    else
      var here := Progress(before.entries + [Entry(index, depth)], before.visited + {index});
      VisitShrinks(forest, before.visited, index, here.visited);
      AppendBelow(view, forest, index, depth, here)
  }

  /** The subtasks of a shown row, as the row's display mode wants them. */
  ghost function AppendBelow(view: SubtaskView, forest: Forest, index: nat, depth: nat,
                             here: Progress): (after: Progress)
    requires forest.Valid() && index < |forest.rows|
    ensures here.visited <= after.visited
    decreases forest.Unvisited(here.visited), 2
  {
    match view.ModeFor(forest.rows[index].Ref())
    case Collapsed => here.(visited := MarkAll(forest, forest.ChildrenOf(index), here.visited))
    case Expanded => AppendAll(view, forest, forest.ChildrenOf(index), depth + 1, here)
    case Separate => AppendAll(view, forest, forest.ChildrenOf(index), 0, here)
  }

  ghost function AppendAll(view: SubtaskView, forest: Forest, kids: seq<nat>, depth: nat,
                           before: Progress): (after: Progress)
    requires forest.Valid() && Within(kids, |forest.rows|)
    ensures before.visited <= after.visited
    ensures forall k :: k in kids ==> k in after.visited
    decreases forest.Unvisited(before.visited), 1, |kids|
  {
    if kids == [] then before
    else
      var first := Append(view, forest, kids[0], depth, before);
      VisitsShrink(forest, before.visited, first.visited);
      AppendAll(view, forest, kids[1..], depth, first)
  }

  lemma {:induction false} MarkAllSnoc(forest: Forest, kids: seq<nat>, last: nat, visited: set<nat>)
    requires forest.Valid() && last < |forest.rows| && Within(kids, |forest.rows|)
    ensures MarkAll(forest, kids + [last], visited) == Mark(forest, last, MarkAll(forest, kids, visited))
    decreases |kids|
  {
    if kids == [] {
      assert kids + [last] == [last];
    } else {
      assert (kids + [last])[0] == kids[0] && (kids + [last])[1..] == kids[1..] + [last];
      MarkAllSnoc(forest, kids[1..], last, Mark(forest, kids[0], visited));
    }
  }

  lemma {:induction false} AppendAllSnoc(view: SubtaskView, forest: Forest, kids: seq<nat>, last: nat, depth: nat,
                                         before: Progress)
    requires forest.Valid() && last < |forest.rows| && Within(kids, |forest.rows|)
    ensures AppendAll(view, forest, kids + [last], depth, before)
         == Append(view, forest, last, depth, AppendAll(view, forest, kids, depth, before))
    decreases |kids|
  {
    if kids == [] {
      assert kids + [last] == [last];
    } else {
      assert (kids + [last])[0] == kids[0] && (kids + [last])[1..] == kids[1..] + [last];
      AppendAllSnoc(view, forest, kids[1..], last, depth, Append(view, forest, kids[0], depth, before));
    }
  }

  function Render(rows: seq<TaskRow>, entries: seq<Entry>): (shown: seq<TaskRow>)
    requires forall k :: 0 <= k < |entries| ==> entries[k].index < |rows|
    ensures |shown| == |entries|
  {
    seq(|entries|, k requires 0 <= k < |entries| =>
      rows[entries[k].index].(hierarchyDepth := entries[k].depth))
  }

  /** The traversal's mutable state: the rows emitted so far and the visited positions. */
  class Traversal {
    const view: SubtaskView
    const forest: Forest
    var ordered: seq<TaskRow>
    var visited: set<nat>
    ghost var entries: seq<Entry>

    ghost predicate Valid()
      reads this
    {
      && forest.Valid()
      && (forall k :: 0 <= k < |entries| ==> entries[k].index < |forest.rows|)
      && ordered == Render(forest.rows, entries)
    }

    ghost function State(): Progress
      reads this
    {
      Progress(entries, visited)
    }

    constructor (view: SubtaskView, forest: Forest)
      requires forest.Valid()
      ensures Valid() && this.view == view && this.forest == forest
      ensures State() == Progress([], {})
    {
      this.view, this.forest := view, forest;
      ordered, visited, entries := [], {}, [];
    }

    /** Shows or skips the tree of one row, as its own ancestors decide. */
    method VisitRow(index: nat, all: map<TaskRef, Task>)
      requires Valid() && index < |forest.rows|
      modifies this
      ensures Valid()
      ensures State() == Visit(view, all, forest, index, old(State()))
    {
      var depth, visible := VisibleOrphanDepth(view, forest.rows[index], all);
      if !visible {
        MarkTaskTree(index);
      } else {
        AppendTaskTree(index, depth);
      }
    }

    method VisitRoots(roots: seq<nat>, all: map<TaskRef, Task>)
      requires Valid() && Within(roots, |forest.rows|)
      modifies this
      ensures Valid()
      ensures State() == VisitAll(view, all, forest, roots, old(State()))
    {
      for i := 0 to |roots|
        invariant Valid()
        invariant State() == VisitAll(view, all, forest, roots[..i], old(State()))
      {
        assert roots[..i + 1] == roots[..i] + [roots[i]];
        VisitAllSnoc(view, all, forest, roots[..i], roots[i], old(State()));
        VisitRow(roots[i], all);
      }
      assert roots[..|roots|] == roots;
    }

    method VisitRest(all: map<TaskRef, Task>)
      requires Valid()
      modifies this
      ensures Valid()
      ensures State() == VisitAll(view, all, forest, Upto(|forest.rows|), old(State()))
    {
      for index := 0 to |forest.rows|
        invariant Valid()
        invariant State() == VisitAll(view, all, forest, Upto(index), old(State()))
      {
        assert Upto(index + 1) == Upto(index) + [index];
        VisitAllSnoc(view, all, forest, Upto(index), index, old(State()));
        if index in visited {
          continue;
        }
        VisitRow(index, all);
      }
    }

    method AppendTaskTree(index: nat, depth: nat)
      requires Valid() && index < |forest.rows|
      modifies this
      ensures Valid()
      ensures State() == Append(view, forest, index, depth, old(State()))
      decreases forest.Unvisited(visited), 2
    {
      if index in visited {
        return;
      }
      VisitShrinks(forest, visited, index, visited + {index});
      visited := visited + {index};
      var row := forest.rows[index].(hierarchyDepth := depth);
      ordered := ordered + [row];
      entries := entries + [Entry(index, depth)];
      var mode := view.ModeFor(row.Ref());
      if mode == Collapsed {
        MarkSubtrees(forest.ChildrenOf(index));
        return;
      }
      var childDepth := if mode == Expanded then depth + 1 else 0;
      AppendSubtrees(forest.ChildrenOf(index), childDepth);
    }

    method AppendSubtrees(kids: seq<nat>, depth: nat)
      requires Valid() && Within(kids, |forest.rows|)
      modifies this
      ensures Valid()
      ensures State() == AppendAll(view, forest, kids, depth, old(State()))
      decreases forest.Unvisited(visited), 3
    {
      ghost var here := State();
      for i := 0 to |kids|
        invariant Valid()
        invariant here.visited <= visited && State() == AppendAll(view, forest, kids[..i], depth, here)
      {
        VisitsShrink(forest, here.visited, visited);
        AppendAllSnoc(view, forest, kids[..i], kids[i], depth, here);
        assert kids[..i + 1] == kids[..i] + [kids[i]];
        AppendTaskTree(kids[i], depth);
      }
      assert kids[..|kids|] == kids;
    }

    method MarkTaskTree(index: nat)
      requires Valid() && index < |forest.rows|
      modifies this`visited
      ensures Valid()
      ensures visited == Mark(forest, index, old(visited))
      decreases forest.Unvisited(visited), 0
    {
      if index in visited {
        return;
      }
      VisitShrinks(forest, visited, index, visited + {index});
      visited := visited + {index};
      MarkSubtrees(forest.ChildrenOf(index));
    }

    method MarkSubtrees(kids: seq<nat>)
      requires Valid() && Within(kids, |forest.rows|)
      modifies this`visited
      ensures Valid()
      ensures visited == MarkAll(forest, kids, old(visited))
      decreases forest.Unvisited(visited), 1
    {
      ghost var here := visited;
      for i := 0 to |kids|
        invariant Valid()
        invariant here <= visited && visited == MarkAll(forest, kids[..i], here)
      {
        VisitsShrink(forest, here, visited);
        MarkAllSnoc(forest, kids[..i], kids[i], here);
        assert kids[..i + 1] == kids[..i] + [kids[i]];
        MarkTaskTree(kids[i]);
      }
      assert kids[..|kids|] == kids;
    }
  }

  // ----- arranging a view -----

  ghost function Refs(rows: seq<TaskRow>): set<TaskRef> {
    set i | 0 <= i < |rows| :: rows[i].Ref()
  }

  /** A row whose parent is not in the view heads a tree of its own. */
  ghost predicate IsRoot(refs: set<TaskRef>, row: TaskRow) {
    !row.task.HasParent() || row.task.ParentRef() !in refs
  }

  /** The trees of the rows before n: subtasks by parent, and the positions that head a tree. */
  datatype Links = Links(children: map<TaskRef, seq<nat>>, roots: seq<nat>)

  ghost function Link(rows: seq<TaskRow>, refs: set<TaskRef>, n: nat): (links: Links)
    requires n <= |rows|
    ensures forall ref :: ref in links.children ==> Within(links.children[ref], n)
    ensures Within(links.roots, n)
  {
    if n == 0 then Links(map[], [])
    else
      var before := Link(rows, refs, n - 1);
      var row := rows[n - 1];
      if IsRoot(refs, row) then before.(roots := before.roots + [n - 1])
      else
        var parent := row.task.ParentRef();
        before.(children := before.children[parent := Lookup(before.children, parent) + [n - 1]])
  }

  ghost predicate IsKid(rows: seq<TaskRow>, refs: set<TaskRef>, parent: TaskRef, k: int) {
    0 <= k < |rows| && !IsRoot(refs, rows[k]) && rows[k].task.ParentRef() == parent
  }

  /** Links hold each position once, under its parent or among the roots, in input order. */
  lemma {:induction false} LinkMembers(rows: seq<TaskRow>, refs: set<TaskRef>, n: nat, parent: TaskRef)
    requires n <= |rows|
    ensures var kids := Lookup(Link(rows, refs, n).children, parent);
            StrictlyIncreasing(kids) && forall k :: k in kids <==> k < n && IsKid(rows, refs, parent, k)
  {
    if n > 0 {
      LinkMembers(rows, refs, n - 1, parent);
      var before := Lookup(Link(rows, refs, n - 1).children, parent);
      var after := Lookup(Link(rows, refs, n).children, parent);
      assert after == if IsKid(rows, refs, parent, n - 1) then before + [n - 1] else before;
    }
  }

  lemma {:induction false} LinkRoots(rows: seq<TaskRow>, refs: set<TaskRef>, n: nat)
    requires n <= |rows|
    ensures var roots := Link(rows, refs, n).roots;
            StrictlyIncreasing(roots) && forall k :: k in roots <==> 0 <= k < n && IsRoot(refs, rows[k])
  {
    if n > 0 {
      LinkRoots(rows, refs, n - 1);
    }
  }

  ghost function ForestOf(rows: seq<TaskRow>): (forest: Forest)
    ensures forest.Valid()
  {
    Forest(rows, Link(rows, Refs(rows), |rows|).children)
  }

  ghost function RootsOf(rows: seq<TaskRow>): (roots: seq<nat>)
    ensures Within(roots, |rows|)
  {
    Link(rows, Refs(rows), |rows|).roots
  }

  ghost function Visit(view: SubtaskView, all: map<TaskRef, Task>, forest: Forest, index: nat,
                       before: Progress): (after: Progress)
    requires forest.Valid() && index < |forest.rows|
    ensures before.visited + {index} <= after.visited
  {
    match RowDepth(view, forest.rows[index], all)
    case None => before.(visited := Mark(forest, index, before.visited))
    case Some(depth) => Append(view, forest, index, depth, before)
  }

  ghost function VisitAll(view: SubtaskView, all: map<TaskRef, Task>, forest: Forest, order: seq<nat>,
                          before: Progress): (after: Progress)
    requires forest.Valid() && Within(order, |forest.rows|)
    ensures before.visited <= after.visited
    decreases |order|
  {
    if order == [] then before
    else VisitAll(view, all, forest, order[1..], Visit(view, all, forest, order[0], before))
  }

  lemma {:induction false} VisitAllSnoc(view: SubtaskView, all: map<TaskRef, Task>, forest: Forest, order: seq<nat>,
                                        last: nat, before: Progress)
    requires forest.Valid() && Within(order, |forest.rows|) && last < |forest.rows|
    ensures VisitAll(view, all, forest, order + [last], before)
         == Visit(view, all, forest, last, VisitAll(view, all, forest, order, before))
    decreases |order|
  {
    if order == [] {
      assert order + [last] == [last];
    } else {
      assert (order + [last])[0] == order[0] && (order + [last])[1..] == order[1..] + [last];
      VisitAllSnoc(view, all, forest, order[1..], last, Visit(view, all, forest, order[0], before));
    }
  }

  ghost function Upto(n: nat): (positions: seq<nat>)
    ensures |positions| == n && forall k :: 0 <= k < n ==> positions[k] == k
  {
    seq(n, k => k)
  }

  /** Trees first, in input order, then whatever only a cycle of parents can reach. */
  ghost function Arrange(view: SubtaskView, rows: seq<TaskRow>, all: map<TaskRef, Task>): Progress {
    var forest := ForestOf(rows);
    VisitAll(view, all, forest, Upto(|rows|), VisitAll(view, all, forest, RootsOf(rows), Progress([], {})))
  }

  method CollectRefs(rows: seq<TaskRow>) returns (byRef: map<TaskRef, nat>)
    ensures byRef.Keys == Refs(rows)
  {
    byRef := map[];
    for index := 0 to |rows|
      invariant byRef.Keys == Refs(rows[..index])
    {
      byRef := byRef[rows[index].Ref() := index];
      assert rows[..index + 1] == rows[..index] + [rows[index]];
      assert Refs(rows[..index + 1]) == Refs(rows[..index]) + {rows[index].Ref()};
    }
    assert rows[..|rows|] == rows;
  }

  method BuildForest(rows: seq<TaskRow>) returns (forest: Forest, roots: seq<nat>)
    ensures forest == ForestOf(rows) && roots == RootsOf(rows)
  {
    var byRef := CollectRefs(rows);
    var children: map<TaskRef, seq<nat>> := map[];
    roots := [];
    for index := 0 to |rows|
      invariant Links(children, roots) == Link(rows, byRef.Keys, index)
    {
      var row := rows[index];
      if !row.task.HasParent() || row.task.ParentRef() !in byRef {
        roots := roots + [index];
      } else {
        var parent := row.task.ParentRef();
        children := children[parent := Lookup(children, parent) + [index]];
      }
    }
    forest := Forest(rows, children);
  }

  method ArrangeTaskHierarchy(view: SubtaskView, rows: seq<TaskRow>, all: map<TaskRef, Task>)
      returns (ordered: seq<TaskRow>)
    ensures var entries := Arrange(view, rows, all).entries;
            (forall k :: 0 <= k < |entries| ==> entries[k].index < |rows|) && ordered == Render(rows, entries)
  {
    if rows == [] {
      return [];
    }
    var forest, roots := BuildForest(rows);
    var traversal := new Traversal(view, forest);
    traversal.VisitRoots(roots, all);
    traversal.VisitRest(all);
    ordered := traversal.ordered;
  }
}
